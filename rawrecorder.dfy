// The stand-alone MQTT recorder and replayer (mqtt_recorder/mqtt_recorder.py).
// Recording stores one {timestamp, topic, base64 payload} record per received
// message; replaying sorts the records by timestamp and republishes those whose
// topic passes the filters, each no earlier than its offset from the first
// record, measured from the moment the replay starts.

module RawRecorder {
  import opened Wrappers
  import Base64
  import TopicFilter

  type byte = Base64.byte

  datatype Record = Record(timestamp: real, topic: string, payload: string)

  /** `encode_payload`: the payload as base64 text, which always decodes back. */
  function EncodePayload(payload: seq<byte>): (s: string)
    ensures DecodePayload(s) == Some(payload)
    ensures |s| == 4 * ((|payload| + 2) / 3)
  {
    Base64.RoundTrip(payload);
    Base64.Encode(payload)
  }

  /** `decode_payload`; None where the text is not base64 and Python raises. */
  function DecodePayload(s: string): Option<seq<byte>> {
    Base64.Decode(s)
  }

  /** Python's `any(topic_matches_sub(f, topic) for f in filters)`. */
  predicate AnyFilterMatches(filters: seq<string>, topic: string) {
    if filters == [] then false
    else TopicFilter.TopicMatchesSub(filters[0], topic) || AnyFilterMatches(filters[1..], topic)
  }

  /** `matches_topic`: an empty filter list lets every topic through. */
  predicate MatchesTopic(filters: seq<string>, topic: string) {
    filters == [] || AnyFilterMatches(filters, topic)
  }

  lemma {:induction false} AnyFilterMatchesSpec(filters: seq<string>, topic: string)
    ensures AnyFilterMatches(filters, topic) <==>
      exists k :: 0 <= k < |filters| && TopicFilter.TopicMatchesSub(filters[k], topic)
  {
    if filters != [] {
      AnyFilterMatchesSpec(filters[1..], topic);
      if AnyFilterMatches(filters[1..], topic) {
        var k :| 0 <= k < |filters[1..]| && TopicFilter.TopicMatchesSub(filters[1..][k], topic);
        assert TopicFilter.TopicMatchesSub(filters[k + 1], topic);
      }
      if exists k :: 0 <= k < |filters| && TopicFilter.TopicMatchesSub(filters[k], topic) {
        var k :| 0 <= k < |filters| && TopicFilter.TopicMatchesSub(filters[k], topic);
        if k > 0 {
          assert TopicFilter.TopicMatchesSub(filters[1..][k - 1], topic);
        }
      }
    }
  }

  /** The topic filter passes a topic iff the list is empty or some filter matches it. */
  lemma MatchesTopicSpec(filters: seq<string>, topic: string)
    ensures MatchesTopic(filters, topic) <==>
      (filters == [] || exists k :: 0 <= k < |filters| && TopicFilter.TopicMatchesSub(filters[k], topic))
  {
    AnyFilterMatchesSpec(filters, topic);
  }

  /** The record list that `record_mode` builds while the client loop runs. */
  class Recorder {
    var messages: seq<Record>

    constructor ()
      ensures messages == []
    {
      messages := [];
    }

    /** `on_message`: one record per message, appended in arrival order. */
    method OnMessage(now: real, topic: string, payload: seq<byte>)
      modifies this
      ensures messages == old(messages) + [Record(now, topic, EncodePayload(payload))]
    {
      messages := messages + [Record(now, topic, EncodePayload(payload))];
    }
  }

  predicate SortedByTimestamp(s: seq<Record>) {
    forall i, j :: 0 <= i < j < |s| ==> s[i].timestamp <= s[j].timestamp
  }

  /** Insert `x` before the first record that is not earlier than it. */
  function Insert(x: Record, s: seq<Record>): (r: seq<Record>)
    requires SortedByTimestamp(s)
    ensures SortedByTimestamp(r)
    ensures multiset(r) == multiset(s) + multiset{x}
    ensures |r| == |s| + 1
    ensures forall k :: 0 <= k < |r| ==> r[k] == x || r[k] in s
  {
    if s == [] || x.timestamp <= s[0].timestamp then
      InsertFront(x, s);
      [x] + s
    else
      var rest := Insert(x, s[1..]);
      InsertBehind(x, s, rest);
      [s[0]] + rest
  }

  lemma InsertFront(x: Record, s: seq<Record>)
    requires SortedByTimestamp(s) && (s == [] || x.timestamp <= s[0].timestamp)
    ensures SortedByTimestamp([x] + s)
    ensures forall k :: 0 <= k < |[x] + s| ==> ([x] + s)[k] == x || ([x] + s)[k] in s
  {
    var r := [x] + s;
    forall k | 0 < k < |r|
      ensures r[k] == s[k - 1]
    {
    }
  }

  lemma InsertBehind(x: Record, s: seq<Record>, rest: seq<Record>)
    requires SortedByTimestamp(s) && s != [] && s[0].timestamp < x.timestamp
    requires SortedByTimestamp(rest) && multiset(rest) == multiset(s[1..]) + multiset{x}
    requires forall k :: 0 <= k < |rest| ==> rest[k] == x || rest[k] in s[1..]
    ensures SortedByTimestamp([s[0]] + rest)
    ensures multiset([s[0]] + rest) == multiset(s) + multiset{x}
    ensures forall k :: 0 <= k < |[s[0]] + rest| ==> ([s[0]] + rest)[k] == x || ([s[0]] + rest)[k] in s
  {
    forall k | 0 <= k < |rest|
      ensures s[0].timestamp <= rest[k].timestamp
    {
      if rest[k] != x {
        var j :| 0 <= j < |s[1..]| && s[1..][j] == rest[k];
        assert s[j + 1] == rest[k];
      }
    }
    var r := [s[0]] + rest;
    forall k | 0 < k < |r|
      ensures r[k] == rest[k - 1]
    {
    }
    assert s == [s[0]] + s[1..];
  }

  /**
   * `messages.sort(key=timestamp)`: a stable sort, here an insertion sort;
   * `SortStable` shows that records with equal timestamps keep their order.
   */
  function SortByTimestamp(s: seq<Record>): (r: seq<Record>)
    ensures SortedByTimestamp(r)
    ensures multiset(r) == multiset(s)
    ensures |r| == |s|
  {
    if s == [] then []
    else
      assert s == [s[0]] + s[1..];
      Insert(s[0], SortByTimestamp(s[1..]))
  }

  /** The records of `s` stamped with time `t`, in their order in `s`. */
  function StampedAt(s: seq<Record>, t: real): (r: seq<Record>)
    ensures |r| <= |s|
  {
    if s == [] then []
    else (if s[0].timestamp == t then [s[0]] else []) + StampedAt(s[1..], t)
  }

  lemma StampedAtCons(a: Record, s: seq<Record>, t: real)
    ensures StampedAt([a] + s, t) == (if a.timestamp == t then [a] else []) + StampedAt(s, t)
  {
    assert ([a] + s)[1..] == s;
  }

  lemma InsertUnfold(x: Record, s: seq<Record>)
    requires SortedByTimestamp(s)
    ensures s == [] || x.timestamp <= s[0].timestamp ==> Insert(x, s) == [x] + s
    ensures s != [] && s[0].timestamp < x.timestamp ==> SortedByTimestamp(s[1..]) && Insert(x, s) == [s[0]] + Insert(x, s[1..])
  {
  }

  /** Putting an earlier record `a` in front of both sides keeps `x` ahead of the records stamped like it. */
  lemma ConsEarlier(a: Record, x: Record, t: real, rest: seq<Record>, tail: seq<Record>)
    requires a.timestamp < x.timestamp
    requires StampedAt(rest, t) == (if x.timestamp == t then [x] else []) + StampedAt(tail, t)
    ensures StampedAt([a] + rest, t) == (if x.timestamp == t then [x] else []) + StampedAt([a] + tail, t)
  {
    StampedAtCons(a, rest, t);
    StampedAtCons(a, tail, t);
  }

  /** Inserting `x` puts it ahead of every record with its timestamp. */
  lemma {:induction false} InsertStable(x: Record, s: seq<Record>, t: real)
    requires SortedByTimestamp(s)
    ensures StampedAt(Insert(x, s), t) == (if x.timestamp == t then [x] else []) + StampedAt(s, t)
  {
    InsertUnfold(x, s);
    if s == [] || x.timestamp <= s[0].timestamp {
      StampedAtCons(x, s, t);
    } else {
      InsertStable(x, s[1..], t);
      ConsEarlier(s[0], x, t, Insert(x, s[1..]), s[1..]);
      assert s == [s[0]] + s[1..];
    }
  }

  /**
   * The sort is stable: for every timestamp, the records carrying it come
   * out in the order they went in.
   */
  lemma {:induction false} SortStable(s: seq<Record>, t: real)
    ensures StampedAt(SortByTimestamp(s), t) == StampedAt(s, t)
  {
    if s != [] {
      SortStable(s[1..], t);
      InsertStable(s[0], SortByTimestamp(s[1..]), t);
    }
  }

  /** A record chosen for replay: its topic, encoded payload and target time. */
  datatype Scheduled = Scheduled(topic: string, payload: string, target: real)

  /**
   * The replay schedule of records that are already sorted: every record
   * whose topic passes the filters, in order, with target time
   * `start + (timestamp - first)`.
   */
  function Schedule(s: seq<Record>, filters: seq<string>, first: real, start: real): seq<Scheduled>
  {
    if s == [] then []
    else
      var rest := Schedule(s[1..], filters, first, start);
      if MatchesTopic(filters, s[0].topic)
      then [Scheduled(s[0].topic, s[0].payload, start + (s[0].timestamp - first))] + rest
      else rest
  }

  /** What `replay_mode` publishes for a file's records, clock permitting. */
  function Plan(messages: seq<Record>, filters: seq<string>, start: real): seq<Scheduled> {
    PlanSorted(SortByTimestamp(messages), filters, start)
  }

  /** The schedule of a sorted list, offsets measured from its first record. */
  function PlanSorted(sorted: seq<Record>, filters: seq<string>, start: real): seq<Scheduled> {
    if sorted == [] then [] else Schedule(sorted, filters, sorted[0].timestamp, start)
  }

  datatype Sent = Sent(topic: string, payload: seq<byte>, at: real)

  datatype ReplayEnd = Finished | DecodeFailed | ClockExhausted

  predicate SentFollows(sent: seq<Sent>, plan: seq<Scheduled>) {
    |sent| <= |plan| &&
    forall k :: 0 <= k < |sent| ==>
      sent[k].topic == plan[k].topic && DecodePayload(plan[k].payload) == Some(sent[k].payload) &&
      sent[k].at >= plan[k].target
  }

  /** The position of the first reading from `c` on that reaches `target`, or `|clock|` when none does. */
  function FirstReach(clock: seq<real>, c: nat, target: real): (k: nat)
    requires c <= |clock|
    ensures c <= k <= |clock|
    ensures forall j :: c <= j < k ==> clock[j] < target
    ensures k < |clock| ==> clock[k] >= target
    decreases |clock| - c
  {
    if c == |clock| then c else if clock[c] >= target then c else FirstReach(clock, c + 1, target)
  }

  /** What `decode_payload` gives for each planned item. */
  function Decodings(plan: seq<Scheduled>): (decoded: seq<Option<seq<byte>>>)
    ensures |decoded| == |plan|
  {
    if plan == [] then [] else [DecodePayload(plan[0].payload)] + Decodings(plan[1..])
  }

  lemma {:induction false} DecodingsAt(plan: seq<Scheduled>, k: nat)
    requires k < |plan|
    ensures Decodings(plan)[k] == DecodePayload(plan[k].payload)
  {
    if k > 0 {
      DecodingsAt(plan[1..], k - 1);
    }
  }

  /**
   * The replay of `plan` from item `n` on, against the clock readings from
   * position `c` on, `decoded` being its items' decoded payloads: each item
   * waits for the first reading that reaches its target and is published at
   * that reading with its decoded payload; the replay stops when the
   * readings run out during a wait, or at a payload that does not decode.
   */
  function Replayed(plan: seq<Scheduled>, decoded: seq<Option<seq<byte>>>, n: nat, clock: seq<real>, c: nat)
    : (r: (seq<Sent>, ReplayEnd))
    requires |decoded| == |plan| && n <= |plan| && c <= |clock|
    ensures r.1 == Finished ==> |r.0| == |plan| - n
    ensures r.1 != Finished ==> |r.0| < |plan| - n
    decreases |plan| - n
  {
    if n == |plan| then ([], Finished)
    else
      var k := FirstReach(clock, c, plan[n].target);
      if k == |clock| then ([], ClockExhausted)
      else
        match decoded[n]
        case None => ([], DecodeFailed)
        case Some(p) => Prepend([Sent(plan[n].topic, p, clock[k])], Replayed(plan, decoded, n + 1, clock, k + 1))
  }

  /** The replay of the whole of `plan` against `clock`. */
  function Replay(plan: seq<Scheduled>, clock: seq<real>): (seq<Sent>, ReplayEnd) {
    Replayed(plan, Decodings(plan), 0, clock, 0)
  }

  /** `sent` published ahead of the replay `r`. */
  function Prepend(sent: seq<Sent>, r: (seq<Sent>, ReplayEnd)): (seq<Sent>, ReplayEnd) {
    (sent + r.0, r.1)
  }

  /**
   * The position from which the wait that ends the replay from item `n` on
   * reads the clock: just after the reading the last published item took.
   */
  function WaitStart(plan: seq<Scheduled>, decoded: seq<Option<seq<byte>>>, n: nat, clock: seq<real>, c: nat): (u: nat)
    requires |decoded| == |plan| && n <= |plan| && c <= |clock|
    ensures c <= u <= |clock|
    decreases |plan| - n
  {
    if n == |plan| then c
    else
      var k := FirstReach(clock, c, plan[n].target);
      if k == |clock| || decoded[n].None? then c
      else WaitStart(plan, decoded, n + 1, clock, k + 1)
  }

  /**
   * A replay that runs out of clock readings stops before the end of the
   * plan, and every reading its last wait saw was before the pending item's
   * target.
   */
  lemma {:induction false} ExhaustedBelow(plan: seq<Scheduled>, decoded: seq<Option<seq<byte>>>, n: nat, clock: seq<real>, c: nat)
    requires |decoded| == |plan| && n <= |plan| && c <= |clock|
    requires Replayed(plan, decoded, n, clock, c).1 == ClockExhausted
    ensures var s := Replayed(plan, decoded, n, clock, c).0;
      n + |s| < |plan| && forall j :: WaitStart(plan, decoded, n, clock, c) <= j < |clock| ==> clock[j] < plan[n + |s|].target
    decreases |plan| - n
  {
    var k := FirstReach(clock, c, plan[n].target);
    if k < |clock| {
      ExhaustedBelow(plan, decoded, n + 1, clock, k + 1);
    }
  }

  /**
   * With enough clock readings (the last `|plan| - n` of them at or after
   * every target), the replay never runs out of clock: it finishes exactly
   * when every payload decodes, and otherwise stops on decoding.
   */
  lemma {:induction false} ReplayedEnough(plan: seq<Scheduled>, decoded: seq<Option<seq<byte>>>, n: nat, clock: seq<real>, c: nat)
    requires |decoded| == |plan| && n <= |plan| && c + (|plan| - n) <= |clock|
    requires forall i, j :: n <= i < |plan| && |clock| - (|plan| - n) <= j < |clock| ==> plan[i].target <= clock[j]
    ensures Replayed(plan, decoded, n, clock, c).1 != ClockExhausted
    ensures Replayed(plan, decoded, n, clock, c).1 == Finished <==> forall i :: n <= i < |plan| ==> decoded[i].Some?
    decreases |plan| - n
  {
    if n < |plan| {
      var k := FirstReach(clock, c, plan[n].target);
      assert plan[n].target <= clock[|clock| - (|plan| - n)];
      if decoded[n].Some? {
        ReplayedEnough(plan, decoded, n + 1, clock, k + 1);
      }
    }
  }

  /**
   * What the replay publishes follows the plan item by item: the same topic,
   * the item's decoded payload, at a reading no earlier than its target; and
   * it stops on decoding only at an item whose payload does not decode.
   */
  lemma {:induction false} ReplayedFollows(plan: seq<Scheduled>, decoded: seq<Option<seq<byte>>>, n: nat, clock: seq<real>, c: nat)
    requires |decoded| == |plan| && n <= |plan| && c <= |clock|
    ensures var r := Replayed(plan, decoded, n, clock, c);
      (forall k :: 0 <= k < |r.0| ==>
        r.0[k].topic == plan[n + k].topic && decoded[n + k] == Some(r.0[k].payload) && r.0[k].at >= plan[n + k].target) &&
      (r.1 == DecodeFailed ==> decoded[n + |r.0|].None?)
    decreases |plan| - n
  {
    if n < |plan| {
      var k := FirstReach(clock, c, plan[n].target);
      if k < |clock| && decoded[n].Some? {
        ReplayedFollows(plan, decoded, n + 1, clock, k + 1);
        var s := Replayed(plan, decoded, n, clock, c).0;
        var rest := Replayed(plan, decoded, n + 1, clock, k + 1).0;
        assert s == [Sent(plan[n].topic, decoded[n].value, clock[k])] + rest;
        forall j | 0 <= j < |s|
          ensures s[j].topic == plan[n + j].topic && decoded[n + j] == Some(s[j].payload) && s[j].at >= plan[n + j].target
        {
          if j > 0 {
            assert s[j] == rest[j - 1];
          }
        }
      }
    }
  }

  /** `ReplayedFollows` for a whole plan, with the payloads decoded. */
  lemma ReplayFollows(plan: seq<Scheduled>, clock: seq<real>)
    ensures SentFollows(Replay(plan, clock).0, plan)
    ensures Replay(plan, clock).1 == DecodeFailed ==> DecodePayload(plan[|Replay(plan, clock).0|].payload).None?
  {
    var r := Replay(plan, clock);
    ReplayedFollows(plan, Decodings(plan), 0, clock, 0);
    forall k | 0 <= k < |r.0|
      ensures DecodePayload(plan[k].payload) == Some(r.0[k].payload)
    {
      DecodingsAt(plan, k);
    }
    if r.1 == DecodeFailed {
      DecodingsAt(plan, |r.0|);
    }
  }

  /**
   * `replay_mode` after the file is read. `start` is the clock reading taken
   * as `replay_start`, and `clock` the successive readings the waiting loop
   * sees; the replay ends early if they run out before a target is reached.
   */
  method ReplayMode(messages: seq<Record>, filters: seq<string>, start: real, clock: seq<real>)
    returns (sent: seq<Sent>, end: ReplayEnd)
    ensures (sent, end) == Replay(Plan(messages, filters, start), clock)
    ensures messages == [] ==> sent == [] && end == Finished
    ensures SentFollows(sent, Plan(messages, filters, start))
    ensures end == Finished ==> |sent| == |Plan(messages, filters, start)|
    ensures end == DecodeFailed ==>
      |sent| < |Plan(messages, filters, start)| &&
      DecodePayload(Plan(messages, filters, start)[|sent|].payload).None?
    ensures end == ClockExhausted ==>
      |sent| < |Plan(messages, filters, start)| &&
      forall j :: WaitStart(Plan(messages, filters, start), Decodings(Plan(messages, filters, start)), 0, clock, 0) <= j < |clock| ==>
        clock[j] < Plan(messages, filters, start)[|sent|].target
  {
    var sorted := SortByTimestamp(messages);
    sent, end := ReplaySorted(sorted, filters, start, clock);
    ReplayFollows(Plan(messages, filters, start), clock);
    if end == ClockExhausted {
      ExhaustedBelow(Plan(messages, filters, start), Decodings(Plan(messages, filters, start)), 0, clock, 0);
    }
  }

  /** `replay_mode` once the records are sorted: nothing to do for an empty file, else the loop. */
  method ReplaySorted(sorted: seq<Record>, filters: seq<string>, start: real, clock: seq<real>)
    returns (sent: seq<Sent>, end: ReplayEnd)
    ensures (sent, end) == Replay(PlanSorted(sorted, filters, start), clock)
    ensures sorted == [] ==> sent == [] && end == Finished
  {
    sent, end := [], Finished;
    if sorted == [] {
      return;
    }
    var first := sorted[0].timestamp;
    ghost var plan := Schedule(sorted, filters, first, start);
    ghost var decoded := Decodings(plan);
    forall k | 0 <= k < |plan|
      ensures DecodedAt(plan, decoded, k)
    {
      DecodingsAt(plan, k);
    }
    sent, end := ReplayLoop(sorted, filters, first, start, clock, plan, decoded);
  }

  /** The payload of item `k` of `plan` decodes to `decoded[k]`. */
  predicate DecodedAt(plan: seq<Scheduled>, decoded: seq<Option<seq<byte>>>, k: nat) {
    k < |plan| && k < |decoded| && decoded[k] == DecodePayload(plan[k].payload)
  }

  /**
   * The loop of `replay_mode` over the sorted records, offsets measured from
   * the first record's timestamp `first`.
   */
  method ReplayLoop(sorted: seq<Record>, filters: seq<string>, first: real, start: real, clock: seq<real>,
                    ghost plan: seq<Scheduled>, ghost decoded: seq<Option<seq<byte>>>)
    returns (sent: seq<Sent>, end: ReplayEnd)
    requires plan == Schedule(sorted, filters, first, start)
    requires |decoded| == |plan| && forall k :: 0 <= k < |plan| ==> DecodedAt(plan, decoded, k)
    ensures (sent, end) == Replayed(plan, decoded, 0, clock, 0)
  {
    sent, end := [], Finished;
    assert sorted[0..] == sorted;
    assert plan[0..] == plan;
    PrependNothing([], Replayed(plan, decoded, 0, clock, 0));
    var i, c := 0, 0;
    while i < |sorted|
      invariant 0 <= i <= |sorted| && 0 <= c <= |clock| && |sent| <= |plan|
      invariant plan == plan[..|sent|] + Schedule(sorted[i..], filters, first, start)
      invariant Replayed(plan, decoded, 0, clock, 0) == Prepend(sent, Replayed(plan, decoded, |sent|, clock, c))
    {
      var stop;
      ghost var before, c0 := sent, c;
      sent, c, stop := ReplayNext(sorted, i, filters, first, start, clock, c, sent, plan, decoded);
      if stop.Some? {
        end := stop.value;
        PrependNothing(sent, ([], end));
        return;
      }
      PrependJoin(before, sent, Replayed(plan, decoded, |before|, clock, c0), Replayed(plan, decoded, |sent|, clock, c));
      i := i + 1;
    }
    assert sorted[i..] == [];
    assert plan[..|sent|] == plan;
    PrependNothing(sent, ([], Finished));
  }

  lemma PrependNothing(sent: seq<Sent>, r: (seq<Sent>, ReplayEnd))
    ensures sent == [] ==> Prepend(sent, r) == r
    ensures r.0 == [] ==> Prepend(sent, r) == (sent, r.1)
  {
    if sent == [] {
      assert [] + r.0 == r.0;
    }
    if r.0 == [] {
      assert sent + [] == sent;
    }
  }

  /** Publishing `before` and then the rest of `sent` ahead of `r2` is publishing `sent` ahead of it. */
  lemma PrependJoin(before: seq<Sent>, sent: seq<Sent>, r1: (seq<Sent>, ReplayEnd), r2: (seq<Sent>, ReplayEnd))
    requires |before| <= |sent| && sent[..|before|] == before && r1 == Prepend(sent[|before|..], r2)
    ensures Prepend(before, r1) == Prepend(sent, r2)
  {
    assert before + sent[|before|..] == sent;
    assert before + (sent[|before|..] + r2.0) == (before + sent[|before|..]) + r2.0;
  }

  /**
   * One turn of the replay loop, for record `i`: skip it when its topic does
   * not pass, otherwise wait for its target and publish its decoded payload,
   * or stop when the clock runs out or the payload does not decode.
   */
  method ReplayNext(sorted: seq<Record>, i: nat, filters: seq<string>, first: real, start: real,
                    clock: seq<real>, c: nat, sent: seq<Sent>, ghost plan: seq<Scheduled>,
                    ghost decoded: seq<Option<seq<byte>>>)
    returns (sent': seq<Sent>, c': nat, stop: Option<ReplayEnd>)
    requires i < |sorted| && c <= |clock|
    requires |sent| <= |plan| && plan == plan[..|sent|] + Schedule(sorted[i..], filters, first, start)
    requires |decoded| == |plan| && forall k :: 0 <= k < |plan| ==> DecodedAt(plan, decoded, k)
    ensures c' <= |clock| && |sent'| <= |plan| && stop != Some(Finished)
    ensures stop.None? ==> plan == plan[..|sent'|] + Schedule(sorted[i + 1..], filters, first, start)
    ensures stop.None? ==> (|sent| <= |sent'| && sent'[..|sent|] == sent &&
      Replayed(plan, decoded, |sent|, clock, c) == Prepend(sent'[|sent|..], Replayed(plan, decoded, |sent'|, clock, c')))
    ensures stop.Some? ==> sent' == sent && Replayed(plan, decoded, |sent|, clock, c) == ([], stop.value)
  {
    sent', c', stop := sent, c, None;
    var m := sorted[i];
    if !MatchesTopic(filters, m.topic) {
      ScheduleSkip(sorted, i, filters, first, start);
      assert sent'[|sent|..] == [];
      PrependNothing([], Replayed(plan, decoded, |sent|, clock, c));
      return;
    }
    var target := start + (m.timestamp - first);
    var item := Scheduled(m.topic, m.payload, target);
    ghost var rest := Schedule(sorted[i + 1..], filters, first, start);
    ScheduleTake(sorted, i, filters, first, start, item);
    NextPlanned(plan, |sent|, Schedule(sorted[i..], filters, first, start), item, rest);
    sent', c', stop := Publish(item, clock, c, sent, plan, decoded);
  }

  /**
   * The publishing half of a replay turn, for the planned `item` next in
   * line: wait for its target, decode its payload and publish it.
   */
  method Publish(item: Scheduled, clock: seq<real>, c: nat, sent: seq<Sent>, ghost plan: seq<Scheduled>,
                 ghost decoded: seq<Option<seq<byte>>>)
    returns (sent': seq<Sent>, c': nat, stop: Option<ReplayEnd>)
    requires |sent| < |plan| && plan[|sent|] == item && c <= |clock|
    requires |decoded| == |plan| && DecodedAt(plan, decoded, |sent|)
    ensures c' <= |clock| && stop != Some(Finished)
    ensures stop.None? ==> |sent'| == |sent| + 1 && sent'[..|sent|] == sent
    ensures stop == Some(DecodeFailed) ==> DecodePayload(item.payload).None?
    ensures stop.None? ==> Replayed(plan, decoded, |sent|, clock, c) == Prepend(sent'[|sent|..], Replayed(plan, decoded, |sent'|, clock, c'))
    ensures stop.Some? ==> sent' == sent && Replayed(plan, decoded, |sent|, clock, c) == ([], stop.value)
  {
    sent', c', stop := sent, c, None;
    var reached, now;
    reached, now, c' := WaitUntil(clock, c, item.target);
    if !reached {
      stop := Some(ClockExhausted);
      return;
    }
    var payload := DecodePayload(item.payload);
    if payload.None? {
      stop := Some(DecodeFailed);
      return;
    }
    var out := Sent(item.topic, payload.value, now);
    sent' := sent + [out];
    assert sent'[|sent|..] == [out];
  }

  /**
   * The busy wait `while time.time() < target`: reads the clock from
   * position `c` on until a reading reaches `target`, or the readings run out.
   */
  method WaitUntil(clock: seq<real>, c: nat, target: real) returns (reached: bool, now: real, next: nat)
    requires c <= |clock|
    ensures c <= next <= |clock|
    ensures reached ==> c < next && now == clock[next - 1] && now >= target
    ensures forall k :: c <= k < next - (if reached then 1 else 0) ==> clock[k] < target
    ensures !reached ==> next == |clock|
    ensures reached <==> FirstReach(clock, c, target) < |clock|
    ensures reached ==> next == FirstReach(clock, c, target) + 1
  {
    reached, now, next := false, target, c;
    while next < |clock| && !reached
      invariant c <= next <= |clock|
      invariant reached ==> c < next && now == clock[next - 1] && now >= target
      invariant forall k :: c <= k < next - (if reached then 1 else 0) ==> clock[k] < target
      invariant !reached ==> FirstReach(clock, c, target) == FirstReach(clock, next, target)
      invariant reached ==> FirstReach(clock, c, target) == next - 1
    {
      now := clock[next];
      next := next + 1;
      reached := now >= target;
    }
  }

  /** When the rest of the plan after `n` items starts with `item`, item `n` is `item`. */
  lemma NextPlanned(plan: seq<Scheduled>, n: nat, tail: seq<Scheduled>, item: Scheduled, rest: seq<Scheduled>)
    requires n <= |plan| && plan == plan[..n] + tail && tail == [item] + rest
    ensures n < |plan| && plan[n] == item && plan == plan[..n + 1] + rest
  {
    assert plan[n] == tail[0];
    assert plan[..n + 1] == plan[..n] + [item];
  }

  lemma ScheduleSkip(s: seq<Record>, i: nat, filters: seq<string>, first: real, start: real)
    requires i < |s| && !MatchesTopic(filters, s[i].topic)
    ensures Schedule(s[i..], filters, first, start) == Schedule(s[i + 1..], filters, first, start)
  {
    assert s[i..][1..] == s[i + 1..];
  }

  lemma ScheduleTake(s: seq<Record>, i: nat, filters: seq<string>, first: real, start: real, item: Scheduled)
    requires i < |s| && MatchesTopic(filters, s[i].topic)
    requires item == Scheduled(s[i].topic, s[i].payload, start + (s[i].timestamp - first))
    ensures Schedule(s[i..], filters, first, start) == [item] + Schedule(s[i + 1..], filters, first, start)
  {
    assert s[i..][1..] == s[i + 1..];
  }

  /**
   * For records sorted by timestamp and offsets measured from a time no later
   * than the first of them, targets never fall before `start` and never decrease.
   */
  lemma {:induction false} ScheduleTargets(s: seq<Record>, filters: seq<string>, first: real, start: real)
    requires SortedByTimestamp(s)
    requires forall k :: 0 <= k < |s| ==> first <= s[k].timestamp
    ensures forall k :: 0 <= k < |Schedule(s, filters, first, start)| ==>
      start <= Schedule(s, filters, first, start)[k].target
    ensures forall k, l :: 0 <= k < l < |Schedule(s, filters, first, start)| ==>
      Schedule(s, filters, first, start)[k].target <= Schedule(s, filters, first, start)[l].target
    ensures forall k :: 0 <= k < |Schedule(s, filters, first, start)| ==>
      start + (s[0].timestamp - first) <= Schedule(s, filters, first, start)[k].target
  {
    if s != [] {
      ScheduleTargets(s[1..], filters, first, start);
      var rest := Schedule(s[1..], filters, first, start);
      assert forall k :: 0 <= k < |rest| ==> start + (s[0].timestamp - first) <= rest[k].target by {
        if s[1..] != [] {
          assert s[0].timestamp <= s[1..][0].timestamp;
        }
      }
    }
  }

  /** The replay targets, offsets measured from the first record, start at `start` and never decrease. */
  lemma PlanTargets(messages: seq<Record>, filters: seq<string>, start: real)
    ensures forall k :: 0 <= k < |Plan(messages, filters, start)| ==>
      start <= Plan(messages, filters, start)[k].target
    ensures forall k, l :: 0 <= k < l < |Plan(messages, filters, start)| ==>
      Plan(messages, filters, start)[k].target <= Plan(messages, filters, start)[l].target
  {
    var sorted := SortByTimestamp(messages);
    if sorted != [] {
      ScheduleTargets(sorted, filters, sorted[0].timestamp, start);
    }
  }

  /** `item` is what the schedule makes of record `r`, which passes the filters. */
  predicate ScheduledFrom(item: Scheduled, r: Record, filters: seq<string>, first: real, start: real) {
    MatchesTopic(filters, r.topic) &&
    item == Scheduled(r.topic, r.payload, start + (r.timestamp - first))
  }

  /**
   * Every scheduled item is a record whose topic passes the filters, carried
   * with its own topic and payload; with no filters every record is scheduled.
   */
  lemma {:induction false} ScheduleItems(s: seq<Record>, filters: seq<string>, first: real, start: real)
    ensures |Schedule(s, filters, first, start)| <= |s|
    ensures forall k :: 0 <= k < |Schedule(s, filters, first, start)| ==>
      exists j :: 0 <= j < |s| && ScheduledFrom(Schedule(s, filters, first, start)[k], s[j], filters, first, start)
    ensures filters == [] ==> |Schedule(s, filters, first, start)| == |s|
  {
    if s != [] {
      ScheduleItems(s[1..], filters, first, start);
      var rest := Schedule(s[1..], filters, first, start);
      var r := Schedule(s, filters, first, start);
      forall k | 0 <= k < |r|
        ensures exists j :: 0 <= j < |s| && ScheduledFrom(r[k], s[j], filters, first, start)
      {
        if MatchesTopic(filters, s[0].topic) && k == 0 {
          assert ScheduledFrom(r[k], s[0], filters, first, start);
        } else {
          var k' := if MatchesTopic(filters, s[0].topic) then k - 1 else k;
          assert r[k] == rest[k'];
          var j :| 0 <= j < |s[1..]| && ScheduledFrom(rest[k'], s[1..][j], filters, first, start);
          assert s[1..][j] == s[j + 1];
        }
      }
    }
  }

  /**
   * A file written by the recorder, whose payloads all came from
   * `EncodePayload`, never stops the replay on a payload that does not decode.
   */
  lemma RecordedNeverFails(messages: seq<Record>, filters: seq<string>, start: real)
    requires forall m :: m in messages ==> exists p :: m.payload == EncodePayload(p)
    ensures forall k :: 0 <= k < |Plan(messages, filters, start)| ==>
      DecodePayload(Plan(messages, filters, start)[k].payload).Some?
  {
    var plan := Plan(messages, filters, start);
    PlanPayloads(messages, filters, start);
    forall k | 0 <= k < |plan|
      ensures DecodePayload(plan[k].payload).Some?
    {
      var m :| m in messages && plan[k].payload == m.payload;
      EncodedDecodes(m.payload);
    }
  }

  /** Every planned payload is the payload of one of the file's records. */
  lemma PlanPayloads(messages: seq<Record>, filters: seq<string>, start: real)
    ensures forall k :: 0 <= k < |Plan(messages, filters, start)| ==>
      exists m :: m in messages && Plan(messages, filters, start)[k].payload == m.payload
  {
    var sorted := SortByTimestamp(messages);
    assert Plan(messages, filters, start) == PlanSorted(sorted, filters, start);
    if sorted != [] {
      var plan := Schedule(sorted, filters, sorted[0].timestamp, start);
      ScheduleItems(sorted, filters, sorted[0].timestamp, start);
      forall k | 0 <= k < |plan|
        ensures exists m :: m in messages && plan[k].payload == m.payload
      {
        var j :| 0 <= j < |sorted| && ScheduledFrom(plan[k], sorted[j], filters, sorted[0].timestamp, start);
        assert sorted[j] in multiset(messages);
        assert sorted[j] in messages && plan[k].payload == sorted[j].payload;
      }
    }
  }

  lemma EncodedDecodes(s: string)
    requires exists p :: s == EncodePayload(p)
    ensures DecodePayload(s).Some?
  {
    var p :| s == EncodePayload(p);
  }

  /**
   * A file this tool recorded, replayed against a clock whose last
   * `|Plan|` readings all reach the last target, ends `Finished` with the
   * whole plan published.
   */
  lemma RecordedReplayFinishes(messages: seq<Record>, filters: seq<string>, start: real, clock: seq<real>,
                                plan: seq<Scheduled>)
    requires forall m :: m in messages ==> exists p :: m.payload == EncodePayload(p)
    requires plan == Plan(messages, filters, start)
    requires |plan| <= |clock|
    requires forall j :: |clock| - |plan| <= j < |clock| ==> plan[|plan| - 1].target <= clock[j]
    ensures Replay(plan, clock).1 == Finished && |Replay(plan, clock).0| == |plan|
  {
    RecordedNeverFails(messages, filters, start);
    PlanTargets(messages, filters, start);
    FinishesWhenReached(plan, clock);
  }

  /**
   * A plan whose targets do not decrease and whose payloads all decode,
   * replayed against a clock whose last `|plan|` readings reach the last
   * target, ends `Finished` with every item published.
   */
  lemma FinishesWhenReached(plan: seq<Scheduled>, clock: seq<real>)
    requires |plan| <= |clock|
    requires forall k :: 0 <= k < |plan| ==> DecodePayload(plan[k].payload).Some?
    requires forall k, l :: 0 <= k < l < |plan| ==> plan[k].target <= plan[l].target
    requires forall j :: |clock| - |plan| <= j < |clock| ==> plan[|plan| - 1].target <= clock[j]
    ensures Replay(plan, clock).1 == Finished && |Replay(plan, clock).0| == |plan|
  {
    forall i, j | 0 <= i < |plan| && |clock| - |plan| <= j < |clock|
      ensures plan[i].target <= clock[j]
    {
      if i < |plan| - 1 {
        assert plan[i].target <= plan[|plan| - 1].target;
      }
    }
    forall k | 0 <= k < |plan|
      ensures Decodings(plan)[k].Some?
    {
      DecodingsAt(plan, k);
    }
    ReplayedEnough(plan, Decodings(plan), 0, clock, 0);
  }
}
