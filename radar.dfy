// The radar track list of the telemetry backend (hmi/backend/app/main.py):
// single detections are matched against the known tracks within a tolerance
// on each axis, new ones are appended, stale ones are dropped; a list message
// replaces every track at once. The published list is the tracks without
// their last-seen times, in the same order.

module Radar {
  import opened Wrappers
  import opened Json

  const DistanceMax: real := 5.0
  const BearingMax: real := 5.0
  const HeadingMax: real := 5.0
  /** Seconds after which a track that was not seen again is dropped. */
  const TrackTimeout: real := 5.0

  datatype Track = Track(distance: real, bearing: real, heading: real, lastSeen: real)

  datatype Published = Published(distance: real, bearing: real, heading: real)

  function Abs(x: real): real { if x < 0.0 then -x else x }

  /** A detection within the tolerance of a track on all three axes. */
  predicate Near(t: Track, distance: real, bearing: real, heading: real) {
    Abs(t.distance - distance) <= DistanceMax &&
    Abs(t.bearing - bearing) <= BearingMax &&
    Abs(t.heading - heading) <= HeadingMax
  }

  /** The position of the first track near the detection, or |ts| when none is. */
  function FirstNear(ts: seq<Track>, distance: real, bearing: real, heading: real): (k: nat)
    ensures k <= |ts|
    ensures k < |ts| ==> Near(ts[k], distance, bearing, heading)
    ensures forall j :: 0 <= j < k ==> !Near(ts[j], distance, bearing, heading)
  {
    if ts == [] then 0
    else if Near(ts[0], distance, bearing, heading) then 0
    else 1 + FirstNear(ts[1..], distance, bearing, heading)
  }

  /** The for/else of `_update_radar_track`: overwrite the first near track, else append. */
  function Upsert(ts: seq<Track>, t: Track): seq<Track> {
    var k := FirstNear(ts, t.distance, t.bearing, t.heading);
    if k < |ts| then ts[k := t] else ts + [t]
  }

  predicate Fresh(t: Track, now: real) {
    now - t.lastSeen <= TrackTimeout
  }

  /** The tracks seen within the timeout, in their order. */
  function Evict(ts: seq<Track>, now: real): seq<Track> {
    if ts == [] then []
    else (if Fresh(ts[0], now) then [ts[0]] else []) + Evict(ts[1..], now)
  }

  /** The published form of the track list. */
  function Project(ts: seq<Track>): (r: seq<Published>)
    ensures |r| == |ts|
    ensures forall i :: 0 <= i < |ts| ==>
      r[i] == Published(ts[i].distance, ts[i].bearing, ts[i].heading)
  {
    if ts == [] then [] else [Published(ts[0].distance, ts[0].bearing, ts[0].heading)] + Project(ts[1..])
  }

  /** `float(t.get(key, 0))` for one field of one track of a list message. */
  function FieldOf(f: map<string, Json>, key: string): Result<real> {
    var v := GetOr(f, key, JInt(0));
    match ToFloat(v)
    case Some(x) => Success(x)
    case None => Failure(if v.JStr? then ValueError else TypeError)
  }

  /** One element of a list message; an element that is not an object has no `get`. */
  function TrackOf(v: Json, now: real): Result<Track> {
    if !v.JObj? then Failure(AttributeError)
    else
      match FieldOf(v.fields, "distance")
      case Failure(e) => Failure(e)
      case Success(d) =>
        match FieldOf(v.fields, "bearing")
        case Failure(e) => Failure(e)
        case Success(b) =>
          match FieldOf(v.fields, "heading")
          case Failure(e) => Failure(e)
          case Success(h) => Success(Track(d, b, h, now))
  }

  /** The list comprehension over a list message: every element converted, or the first error. */
  function TracksOf(items: seq<Json>, now: real): (r: Result<seq<Track>>)
    ensures r.Success? ==> |r.value| == |items|
    ensures r.Success? ==> forall i :: 0 <= i < |items| ==>
      TrackOf(items[i], now) == Success(r.value[i]) && r.value[i].lastSeen == now
    ensures r.Failure? <==> exists i :: 0 <= i < |items| && TrackOf(items[i], now).Failure?
  {
    if items == [] then Success([])
    else
      match TrackOf(items[0], now)
      case Failure(e) => Failure(e)
      case Success(t) =>
        var rest := TracksOf(items[1..], now);
        assert forall i :: 1 <= i < |items| ==> items[i] == items[1..][i - 1];
        match rest
        case Failure(e) =>
          var i :| 0 <= i < |items[1..]| && TrackOf(items[1..][i], now).Failure?;
          assert TrackOf(items[i + 1], now).Failure?;
          Failure(e)
        case Success(ts) => Success([t] + ts)
  }

  /** The internal track list and the published list of the backend's state. */
  class TrackManager {
    var tracks: seq<Track>
    var published: seq<Published>

    constructor ()
      ensures tracks == [] && published == []
    {
      tracks := [];
      published := [];
    }

    /**
     * `_update_radar_track(distance, bearing, heading)` at time `now`:
     * the detection replaces the first near track or is appended, stale
     * tracks are dropped, and the published list is refreshed.
     */
    method UpdatePoint(distance: real, bearing: real, heading: real, now: real)
      modifies this
      ensures tracks == Evict(Upsert(old(tracks), Track(distance, bearing, heading, now)), now)
      ensures published == Project(tracks)
      ensures Track(distance, bearing, heading, now) in tracks
      ensures forall t :: t in tracks ==> Fresh(t, now)
    {
      var t := Track(distance, bearing, heading, now);
      var i := 0;
      while i < |tracks| && !Near(tracks[i], distance, bearing, heading)
        invariant 0 <= i <= |tracks|
        invariant forall j :: 0 <= j < i ==> !Near(tracks[j], distance, bearing, heading)
      {
        i := i + 1;
      }
      FirstNearUnique(tracks, distance, bearing, heading, i);
      if i < |tracks| {
        tracks := tracks[i := t];
        assert tracks[i] == t;
      } else {
        tracks := tracks + [t];
        assert tracks[|tracks| - 1] == t;
      }
      UpsertHolds(old(tracks), t);
      EvictKeepsFresh(tracks, now, t);
      tracks := Evict(tracks, now);
      EvictSound(old(tracks), t, now);
      published := Project(tracks);
    }

    /**
     * A list message on the radar topics: the message itself when it is a
     * list, else its "tracks" field. A list replaces every track, all stamped
     * `now`; a failed conversion raises and leaves both lists as they were.
     */
    method ReplaceAll(payload: Json, now: real) returns (out: Outcome)
      modifies this
      ensures !payload.JArr? && !payload.JObj? ==> out == Fail(AttributeError)
      ensures out.Fail? <==> ((!payload.JArr? && !payload.JObj?) ||
                              (TrackListOf(payload).Some? && TracksOf(TrackListOf(payload).value, now).Failure?))
      ensures out.Fail? || !TrackListOf(payload).Some? ==> tracks == old(tracks) && published == old(published)
      ensures out.Pass? && TrackListOf(payload).Some? ==>
        TracksOf(TrackListOf(payload).value, now) == Success(tracks) && published == Project(tracks)
      ensures out.Pass? && TrackListOf(payload).Some? ==>
        |tracks| == |TrackListOf(payload).value| && forall t :: t in tracks ==> t.lastSeen == now
      ensures Replaced(old(tracks), old(published), tracks, published, payload, now, out)
    {
      if !payload.JArr? && !payload.JObj? {
        return Fail(AttributeError);
      }
      var items := TrackListOf(payload);
      if items.None? {
        return Pass;
      }
      var parsed := TracksOf(items.value, now);
      if parsed.Failure? {
        return Fail(parsed.error);
      }
      tracks := parsed.value;
      published := Project(tracks);
      return Pass;
    }

    /**
     * A detection on the track topic: all three fields present are converted
     * with `float()` and then matched; a missing field ignores the message.
     */
    method OnTrack(payload: Json, now: real) returns (out: Outcome)
      modifies this
      ensures !payload.JObj? ==> out == Fail(AttributeError)
      ensures payload.JObj? && DetectionOf(payload.fields).Some? ==> out == Pass
      ensures out.Fail? ==> tracks == old(tracks) && published == old(published)
      ensures payload.JObj? && DetectionOf(payload.fields).Some? && out.Pass? ==>
        var d := DetectionOf(payload.fields).value;
        tracks == Evict(Upsert(old(tracks), Track(d.0, d.1, d.2, now)), now) && published == Project(tracks)
      ensures payload.JObj? && DetectionOf(payload.fields).None? ==>
        tracks == old(tracks) && published == old(published)
      ensures Handled(old(tracks), old(published), tracks, published, payload, now, out)
    {
      if !payload.JObj? {
        return Fail(AttributeError);
      }
      var f := payload.fields;
      if Get(f, "distance") == JNull || Get(f, "bearing") == JNull || Get(f, "heading") == JNull {
        return Pass;
      }
      var d := FieldOf(f, "distance");
      if d.Failure? {
        return Fail(d.error);
      }
      var b := FieldOf(f, "bearing");
      if b.Failure? {
        return Fail(b.error);
      }
      var h := FieldOf(f, "heading");
      if h.Failure? {
        return Fail(h.error);
      }
      UpdatePoint(d.value, b.value, h.value, now);
      return Pass;
    }
  }

  /**
   * What a detection message does to the two lists: not an object, it
   * raises; with all three fields converted, the detection is matched and
   * Pass; in every other case both lists stay as they were.
   */
  predicate Handled(before: seq<Track>, beforePublished: seq<Published>,
                    tracks: seq<Track>, published: seq<Published>, payload: Json, now: real, out: Outcome)
  {
    var matched := payload.JObj? && DetectionOf(payload.fields).Some?;
    (!payload.JObj? ==> out == Fail(AttributeError)) &&
    (matched ==> out == Pass &&
                 var d := DetectionOf(payload.fields).value;
                 tracks == Evict(Upsert(before, Track(d.0, d.1, d.2, now)), now) && published == Project(tracks)) &&
    (!matched ==> tracks == before && published == beforePublished)
  }

  /**
   * What a list message does to the two lists: it raises exactly when the
   * payload has no `get` or an element fails to convert, and then leaves
   * both lists; a list that converts replaces them; a payload without a
   * list changes nothing.
   */
  predicate Replaced(before: seq<Track>, beforePublished: seq<Published>,
                     tracks: seq<Track>, published: seq<Published>, payload: Json, now: real, out: Outcome)
  {
    var list := TrackListOf(payload);
    (out.Fail? <==> (!payload.JArr? && !payload.JObj?) || (list.Some? && TracksOf(list.value, now).Failure?)) &&
    (out.Pass? && list.Some? ==> TracksOf(list.value, now) == Success(tracks) && published == Project(tracks)) &&
    (out.Fail? || list.None? ==> tracks == before && published == beforePublished)
  }

  /** `payload if isinstance(payload, list) else payload.get("tracks")`, when that is a list. */
  function TrackListOf(payload: Json): Option<seq<Json>> {
    match payload
    case JArr(items) => Some(items)
    case JObj(f) => (if Get(f, "tracks").JArr? then Some(Get(f, "tracks").items) else None)
    case _ => None
  }

  /** The three fields of a detection, when all are present and convert. */
  function DetectionOf(f: map<string, Json>): Option<(real, real, real)> {
    if Get(f, "distance") == JNull || Get(f, "bearing") == JNull || Get(f, "heading") == JNull then None
    else
      match (FieldOf(f, "distance"), FieldOf(f, "bearing"), FieldOf(f, "heading"))
      case (Success(d), Success(b), Success(h)) => Some((d, b, h))
      case _ => None
  }

  // ---- properties ----

  lemma FirstNearUnique(ts: seq<Track>, distance: real, bearing: real, heading: real, k: nat)
    requires k <= |ts|
    requires k < |ts| ==> Near(ts[k], distance, bearing, heading)
    requires forall j :: 0 <= j < k ==> !Near(ts[j], distance, bearing, heading)
    ensures k == FirstNear(ts, distance, bearing, heading)
  {
  }

  lemma UpsertHolds(ts: seq<Track>, t: Track)
    ensures var k := FirstNear(ts, t.distance, t.bearing, t.heading);
      Upsert(ts, t) == if k < |ts| then ts[k := t] else ts + [t]
  {
  }

  /**
   * A point update overwrites exactly the first near track; with no near
   * track it appends exactly one. No other track changes, and the detection
   * is in the list afterwards.
   */
  lemma UpsertSpec(ts: seq<Track>, t: Track)
    ensures var k := FirstNear(ts, t.distance, t.bearing, t.heading);
      var r := Upsert(ts, t);
      (k < |ts| ==> |r| == |ts| && r[k] == t && forall j :: 0 <= j < |ts| && j != k ==> r[j] == ts[j]) &&
      (k == |ts| ==> |r| == |ts| + 1 && r[..|ts|] == ts && r[|ts|] == t) &&
      (k < |ts| <==> exists j :: 0 <= j < |ts| && Near(ts[j], t.distance, t.bearing, t.heading))
  {
    var k := FirstNear(ts, t.distance, t.bearing, t.heading);
    var r := Upsert(ts, t);
    if k == |ts| {
      assert r[..|ts|] == ts;
    }
  }

  /** Eviction keeps exactly the tracks seen within the timeout. */
  lemma {:induction false} EvictSpec(ts: seq<Track>, now: real)
    ensures forall t :: t in Evict(ts, now) <==> t in ts && Fresh(t, now)
    ensures |Evict(ts, now)| <= |ts|
  {
    if ts != [] {
      EvictSpec(ts[1..], now);
      assert ts == [ts[0]] + ts[1..];
    }
  }

  /** Eviction keeps the order: it distributes over concatenation. */
  lemma {:induction false} EvictAppend(a: seq<Track>, b: seq<Track>, now: real)
    ensures Evict(a + b, now) == Evict(a, now) + Evict(b, now)
  {
    if a == [] {
      assert a + b == b;
    } else {
      EvictAppend(a[1..], b, now);
      assert (a + b)[1..] == a[1..] + b;
    }
  }

  /** A list in which every track is fresh is left as it is. */
  lemma {:induction false} EvictAllFresh(ts: seq<Track>, now: real)
    requires forall t :: t in ts ==> Fresh(t, now)
    ensures Evict(ts, now) == ts
  {
    if ts != [] {
      EvictAllFresh(ts[1..], now);
      assert ts == [ts[0]] + ts[1..];
    }
  }

  lemma EvictKeepsFresh(ts: seq<Track>, now: real, t: Track)
    requires t in ts && Fresh(t, now)
    ensures t in Evict(ts, now)
  {
    EvictSpec(ts, now);
  }

  lemma EvictSound(ts: seq<Track>, t: Track, now: real)
    ensures forall u :: u in Evict(Upsert(ts, t), now) ==> Fresh(u, now)
  {
    EvictSpec(Upsert(ts, t), now);
  }

  /** A list message of well-formed tracks is taken over whole and in order. */
  lemma ReplaceOrder(items: seq<Json>, now: real, tracks: seq<Track>)
    requires TracksOf(items, now) == Success(tracks)
    ensures |Project(tracks)| == |items|
    ensures forall i :: 0 <= i < |items| ==>
      items[i].JObj? && Project(tracks)[i].distance == FieldOf(items[i].fields, "distance").value
  {
    forall i | 0 <= i < |items|
      ensures items[i].JObj? && Project(tracks)[i].distance == FieldOf(items[i].fields, "distance").value
    {
      assert TrackOf(items[i], now) == Success(tracks[i]);
    }
  }

  /** A field missing from an element of a list message reads as 0. */
  lemma MissingFieldIsZero(f: map<string, Json>, key: string)
    requires key !in f
    ensures FieldOf(f, key) == Success(0.0)
  {
  }
}
