// The ESP32 bridge simulator (simulators/esp32_sim/lib/esp32_sim.py): its
// validating property setters, the configuration sequence, the loading of
// the per-topic schemas, and the handler that filters, stamps, renumbers and
// routes each incoming message from an input topic to its output topic.

module Esp32 {
  import opened Wrappers
  import opened Json
  import opened Text

  /** Every configurable property of the bridge; an unset one is None. */
  datatype Config = Config(
    brokerHost: Option<string>, brokerPort: Option<int>, clientId: Option<string>, retainStatus: bool,
    imuIn: Option<string>, gpsIn: Option<string>, battIn: Option<string>,
    imuOut: Option<string>, gpsOut: Option<string>, battOut: Option<string>, statusTopic: Option<string>,
    qosImu: int, qosGps: int, qosBatt: int,
    validateSchema: bool, schemaPath: Option<string>, logMessages: bool)

  /** The values the constructor sets. */
  const Defaults := Config(None, None, None, true, None, None, None, None, None, None, None, 0, 1, 1, true, None, false)

  /** The property setters. */
  datatype Property =
    | BrokerHost | BrokerPort | ClientId | RetainStatus
    | ImuIn | GpsIn | BattIn | ImuOut | GpsOut | BattOut | StatusTopic
    | QosImu | QosGps | QosBatt | ValidateSchema | SchemaPath | LogMessages

  /** What a setter demands of its value. */
  datatype Kind = AnyString | PositiveInt | Flag | TopicName | NonNegativeInt | NonEmptyString

  function KindOf(p: Property): Kind {
    match p
    case BrokerHost => AnyString
    case ClientId => AnyString
    case BrokerPort => PositiveInt
    case RetainStatus => Flag
    case ValidateSchema => Flag
    case LogMessages => Flag
    case QosImu => NonNegativeInt
    case QosGps => NonNegativeInt
    case QosBatt => NonNegativeInt
    case SchemaPath => NonEmptyString
    case _ => TopicName
  }

  /** The values each kind of setter accepts; every other value raises TypeError. */
  predicate Accepts(k: Kind, v: Json) {
    match k
    case AnyString => v.JStr?
    case PositiveInt => IsInt(v) && IntOf(v) > 0
    case Flag => v.JBool?
    case TopicName => v.JStr? && !Blank(v.s)
    case NonNegativeInt => IsInt(v) && IntOf(v) >= 0
    case NonEmptyString => v.JStr? && v.s != ""
  }

  function OptStr(o: Option<string>): Json {
    if o.Some? then JStr(o.value) else JNull
  }

  /** What reading a property gives: None for an unset one. */
  function Read(c: Config, p: Property): Json {
    match p
    case BrokerHost => OptStr(c.brokerHost)
    case BrokerPort => if c.brokerPort.Some? then JInt(c.brokerPort.value) else JNull
    case ClientId => OptStr(c.clientId)
    case RetainStatus => JBool(c.retainStatus)
    case ImuIn => OptStr(c.imuIn)
    case GpsIn => OptStr(c.gpsIn)
    case BattIn => OptStr(c.battIn)
    case ImuOut => OptStr(c.imuOut)
    case GpsOut => OptStr(c.gpsOut)
    case BattOut => OptStr(c.battOut)
    case StatusTopic => OptStr(c.statusTopic)
    case QosImu => JInt(c.qosImu)
    case QosGps => JInt(c.qosGps)
    case QosBatt => JInt(c.qosBatt)
    case ValidateSchema => JBool(c.validateSchema)
    case SchemaPath => OptStr(c.schemaPath)
    case LogMessages => JBool(c.logMessages)
  }

  /** The value an accepting setter keeps: an integer setter keeps a bool as its integer. */
  function Stored(p: Property, v: Json): Json {
    if (KindOf(p) == PositiveInt || KindOf(p) == NonNegativeInt) && IsInt(v) then JInt(IntOf(v)) else v
  }

  /** A string of whitespace only: what `str.strip()` empties. */
  predicate Blank(s: string) {
    forall i :: 0 <= i < |s| ==> IsSpace(s[i])
  }

  /** `Blank` is exactly the text `Strip` empties, the test `_check_topic` makes. */
  lemma BlankStripped(s: string)
    ensures Blank(s) <==> Strip(s) == []
  {
    StripShape(s);
  }

  /** `_check_topic`: a string that is not blank. */
  function CheckTopic(v: Json): (r: Result<string>)
    ensures r.Success? ==> v == JStr(r.value)
  {
    if v.JStr? && !Blank(v.s) then Success(v.s) else Failure(TypeError)
  }

  /**
   * A property setter on values: the new configuration, or the TypeError it
   * raises (`AssignMeans` and `AssignFrame` state what it does). Every
   * setter checks its value against its kind, then stores it.
   */
  function Assign(c: Config, p: Property, v: Json): Result<Config> {
    match KindOf(p)
    case TopicName =>
      var t := CheckTopic(v);
      if t.Failure? then Failure(t.error) else Success(StoreTopic(c, p, t.value))
    case PositiveInt => if IsInt(v) && IntOf(v) > 0 then Success(c.(brokerPort := Some(IntOf(v)))) else Failure(TypeError)
    case NonNegativeInt => if IsInt(v) && IntOf(v) >= 0 then Success(StoreQos(c, p, IntOf(v))) else Failure(TypeError)
    case Flag => if v.JBool? then Success(StoreFlag(c, p, v.b)) else Failure(TypeError)
    case AnyString => if v.JStr? then Success(StoreName(c, p, v.s)) else Failure(TypeError)
    case NonEmptyString => if v.JStr? && v.s != "" then Success(c.(schemaPath := Some(v.s))) else Failure(TypeError)
  }

  function StoreTopic(c: Config, p: Property, t: string): Config {
    match p
    case ImuIn => c.(imuIn := Some(t))
    case GpsIn => c.(gpsIn := Some(t))
    case BattIn => c.(battIn := Some(t))
    case ImuOut => c.(imuOut := Some(t))
    case GpsOut => c.(gpsOut := Some(t))
    case BattOut => c.(battOut := Some(t))
    case _ => c.(statusTopic := Some(t))
  }

  function StoreQos(c: Config, p: Property, n: int): Config {
    match p
    case QosImu => c.(qosImu := n)
    case QosGps => c.(qosGps := n)
    case _ => c.(qosBatt := n)
  }

  function StoreFlag(c: Config, p: Property, b: bool): Config {
    match p
    case RetainStatus => c.(retainStatus := b)
    case ValidateSchema => c.(validateSchema := b)
    case _ => c.(logMessages := b)
  }

  function StoreName(c: Config, p: Property, s: string): Config {
    match p
    case BrokerHost => c.(brokerHost := Some(s))
    case _ => c.(clientId := Some(s))
  }

  /** What the configuration file reader hands over, one value per option, in the reader's types. */
  datatype Parsed = Parsed(
    host: string, port: int, clientId: string, retainStatus: bool,
    imuIn: string, gpsIn: string, battIn: string, imuOut: string, gpsOut: string, battOut: string, statusTopic: string,
    qosImu: int, qosGps: int, qosBatt: int, validateSchema: bool, schemaPath: string, logMessages: bool)

  /** The properties `read_config` sets, in order. */
  const Order: seq<Property> := [
    BrokerHost, BrokerPort, ClientId, RetainStatus,
    ImuIn, GpsIn, BattIn, ImuOut, GpsOut, BattOut, StatusTopic,
    QosImu, QosGps, QosBatt, ValidateSchema, SchemaPath, LogMessages]

  /** The property `read_config` sets at position `i`. */
  function PropertyAt(i: nat): Property
    requires i < Steps
  {
    Order[i]
  }

  /** The number of setter calls of `read_config`. */
  const Steps := 17

  /** The value `read_config` hands to the setter of `q`: the reader's, in its own type. */
  function Given(r: Parsed, q: Property): Json {
    match q
    case BrokerHost => JStr(r.host)
    case BrokerPort => JInt(r.port)
    case ClientId => JStr(r.clientId)
    case RetainStatus => JBool(r.retainStatus)
    case ImuIn => JStr(r.imuIn)
    case GpsIn => JStr(r.gpsIn)
    case BattIn => JStr(r.battIn)
    case ImuOut => JStr(r.imuOut)
    case GpsOut => JStr(r.gpsOut)
    case BattOut => JStr(r.battOut)
    case StatusTopic => JStr(r.statusTopic)
    case QosImu => JInt(r.qosImu)
    case QosGps => JInt(r.qosGps)
    case QosBatt => JInt(r.qosBatt)
    case ValidateSchema => JBool(r.validateSchema)
    case SchemaPath => JStr(r.schemaPath)
    case LogMessages => JBool(r.logMessages)
  }

  /**
   * The setter calls of `read_config` from position `i` on, in order,
   * stopping at the first that raises; the stores before it stay.
   */
  function Configured(c: Config, r: Parsed, i: nat): (Config, Option<PyError>)
    decreases Steps - i
  {
    if i >= Steps then (c, None)
    else
      var q := PropertyAt(i);
      var a := Assign(c, q, Given(r, q));
      if a.Failure? then (c, Some(a.error)) else Configured(a.value, r, i + 1)
  }

  /** The position of the first setter call from `i` on that refuses its value, or `Steps`. */
  function FirstRefused(r: Parsed, i: nat): (k: nat)
    ensures i <= k <= Steps || (i > Steps && k == Steps)
    decreases Steps - i
  {
    if i >= Steps then Steps
    else if !Accepts(KindOf(PropertyAt(i)), Given(r, PropertyAt(i))) then i
    else FirstRefused(r, i + 1)
  }

  /** The values the reader hands over that every setter accepts. */
  predicate Acceptable(r: Parsed) {
    r.port > 0 && !Blank(r.imuIn) && !Blank(r.gpsIn) && !Blank(r.battIn) &&
    !Blank(r.imuOut) && !Blank(r.gpsOut) && !Blank(r.battOut) && !Blank(r.statusTopic) &&
    r.qosImu >= 0 && r.qosGps >= 0 && r.qosBatt >= 0 && r.schemaPath != ""
  }

  /** The configuration the reader's values describe. */
  function ConfigOf(r: Parsed): Config {
    Config(Some(r.host), Some(r.port), Some(r.clientId), r.retainStatus,
           Some(r.imuIn), Some(r.gpsIn), Some(r.battIn), Some(r.imuOut), Some(r.gpsOut), Some(r.battOut), Some(r.statusTopic),
           r.qosImu, r.qosGps, r.qosBatt, r.validateSchema, Some(r.schemaPath), r.logMessages)
  }

  /** An MQTT publication: topic (None where the topic was never set), JSON object, QoS and retain flag. */
  datatype Message = Message(topic: Option<string>, payload: map<string, Json>, qos: int, retain: bool)

  /** The retained status message, "online" or "offline", stamped with the time. */
  function Status(c: Config, status: string, iso: string): Message {
    Message(c.statusTopic, map["status" := JStr(status), "ts" := JStr(iso)], 1, true)
  }

  /** The MQTT client `read_config` creates: its id and its last will. */
  datatype Client = Client(id: Option<string>, will: Message)

  /** Python's truth value of a JSON value. */
  predicate Truthy(v: Json) {
    match v
    case JNull => false
    case JBool(b) => b
    case JInt(i) => i != 0
    case JFloat(r) => r != 0.0
    case JNonFinite => true
    case JStr(s) => s != ""
    case JArr(items) => items != []
    case JObj(fields) => fields != map[]
  }

  /** A topic entry that contributes a schema: an object whose "schema" is truthy. */
  predicate Kept(info: Json) {
    info.JObj? && "schema" in info.fields && Truthy(info.fields["schema"])
  }

  /** The schemas of the entries of `topics` named in `ks`. */
  function Entries(topics: map<string, Json>, ks: set<string>): map<string, Json> {
    map t | t in ks && t in topics && Kept(topics[t]) :: topics[t].fields["schema"]
  }

  /**
   * `_load_schemas_exact` on the parsed schema file (None when the file
   * cannot be opened or parsed): the error it lets escape and the schemas
   * kept afterwards. A file that cannot be read empties the table; a file
   * whose top level or "topics" entry is not an object raises
   * AttributeError; otherwise each kept entry is added over the table.
   */
  function Loaded(base: map<string, Json>, spec: Option<Json>): (Option<PyError>, map<string, Json>) {
    if spec.None? then (None, map[])
    else if !spec.value.JObj? then (Some(AttributeError), base)
    else
      var topics := GetOr(spec.value.fields, "topics", JObj(map[]));
      if !topics.JObj? then (Some(AttributeError), base)
      else (None, base + Entries(topics.fields, topics.fields.Keys))
  }

  /** Where a routed message goes: the `_last_recv` key, the output topic and the QoS. */
  datatype Leg = Leg(key: string, out: Option<string>, qos: int)

  /** The routing of `_on_message`: the first input topic equal to `topic` decides. */
  function Route(c: Config, topic: string): Option<Leg> {
    if c.imuIn == Some(topic) then Some(Leg("imu", c.imuOut, c.qosImu))
    else if c.gpsIn == Some(topic) then Some(Leg("gps", c.gpsOut, c.qosGps))
    else if c.battIn == Some(topic) then Some(Leg("battery", c.battOut, c.qosBatt))
    else None
  }

  /**
   * The messages `_on_message` drops before touching any state: a payload
   * that is not UTF-8 JSON (None), JSON that is not an object, and, while
   * validation is on, an object the topic's schema rejects.
   */
  predicate Discards(c: Config, schemas: map<string, Json>, topic: string, payload: Option<Json>, valid: (Json, Json) -> bool) {
    payload.None? || !payload.value.JObj? ||
    (c.validateSchema && topic in schemas && !valid(schemas[topic], payload.value))
  }

  /** A "ts" the bridge keeps: a string ending in "Z". */
  predicate KeepsTs(p: map<string, Json>) {
    "ts" in p && p["ts"].JStr? && EndsWith(p["ts"].s, "Z")
  }

  /** `int(seq)` where it succeeds, the value itself where it raises. */
  function SimSeq(v: Json): Json {
    var n := ToInt(v);
    if n.Some? then JInt(n.value) else v
  }

  /** The stamped and renumbered payload. */
  function Restamped(p: map<string, Json>, number: int, recvIso: string, fwdIso: string): map<string, Json> {
    var p1 := if KeepsTs(p) then p else p["ts" := JStr(recvIso)]["ts_source" := JStr("bridge")];
    var p2 := p1["_recv_ts" := JStr(recvIso)];
    var p3 := if "seq" in p then p2["sim_seq" := SimSeq(p["seq"])] else p2;
    p3["seq" := JInt(number)]["_forward_ts" := JStr(fwdIso)]
  }

  /** What one incoming message comes to. */
  datatype Delivery = Discarded | Unrouted | Forwarded(msg: Message)

  /** The counters `_on_message` updates. */
  datatype Counters = Counters(pubSeq: int, lastRecv: map<string, Option<real>>)

  /** `_on_message` on values: the counters afterwards and the delivery. */
  function Received(c: Config, schemas: map<string, Json>, k: Counters, topic: string, payload: Option<Json>,
                    now: real, recvIso: string, fwdIso: string, valid: (Json, Json) -> bool): (Counters, Delivery)
  {
    if Discards(c, schemas, topic, payload, valid) then (k, Discarded)
    else
      var route := Route(c, topic);
      var lastRecv := if route.Some? then k.lastRecv[route.value.key := Some(now)] else k.lastRecv;
      var out := Restamped(payload.value.fields, k.pubSeq, recvIso, fwdIso);
      (Counters(k.pubSeq + 1, lastRecv), if route.Some? then Forwarded(Message(route.value.out, out, route.value.qos, false)) else Unrouted)
  }

  /** `_last_recv` before any message. */
  const NoneReceived: map<string, Option<real>> := map["imu" := None, "gps" := None, "battery" := None]

  class ESP32 {
    var cfg: Config
    /** `_schemas_exact`. */
    var schemas: map<string, Json>
    /** The MQTT client, None until `read_config` creates it. */
    var client: Option<Client>
    var running: bool
    var counters: Counters

    constructor ()
      ensures cfg == Defaults && schemas == map[] && client.None? && !running && counters == Counters(0, NoneReceived)
    {
      cfg := Defaults;
      schemas := map[];
      client := None;
      running := false;
      counters := Counters(0, NoneReceived);
    }

    /** A property setter: the value is stored when accepted; a TypeError changes nothing. */
    method Set(p: Property, v: Json) returns (err: Option<PyError>)
      modifies this`cfg
      ensures Assign(old(cfg), p, v).Success? ==> err.None? && cfg == Assign(old(cfg), p, v).value
      ensures Assign(old(cfg), p, v).Failure? ==> err == Some(Assign(old(cfg), p, v).error) && cfg == old(cfg)
      ensures err.Some? ==> err == Some(TypeError)
    {
      AssignMeans(cfg, p, v);
      var r := Assign(cfg, p, v);
      if r.Failure? {
        return Some(r.error);
      }
      cfg := r.value;
      err := None;
    }

    /**
     * `read_config`: the setters in order, stopping at the first that raises;
     * then the client with its "offline" last will stamped `nowIso`; then,
     * when validation is on, the schemas from the parsed schema file `spec`.
     */
    method ReadConfig(parsed: Parsed, spec: Option<Json>, nowIso: string) returns (err: Option<PyError>)
      modifies this`cfg, this`client, this`schemas
      ensures cfg == Configured(old(cfg), parsed, 0).0
      ensures Configured(old(cfg), parsed, 0).1.Some? ==>
        err == Configured(old(cfg), parsed, 0).1 && client == old(client) && schemas == old(schemas)
      ensures Configured(old(cfg), parsed, 0).1.None? ==>
        client == Some(Client(cfg.clientId, Status(cfg, "offline", nowIso))) &&
        (cfg.validateSchema ==> (err, schemas) == Loaded(old(schemas), spec)) &&
        (!cfg.validateSchema ==> err.None? && schemas == old(schemas))
    {
      err := ReadGroup(parsed, 0, 2); if err.Some? { return; }
      err := ReadGroup(parsed, 2, 4); if err.Some? { return; }
      err := ReadGroup(parsed, 4, 11); if err.Some? { return; }
      err := ReadGroup(parsed, 11, 14); if err.Some? { return; }
      err := ReadGroup(parsed, 14, Steps); if err.Some? { return; }
      client := Some(Client(cfg.clientId, Status(cfg, "offline", nowIso)));
      if cfg.validateSchema {
        err := LoadSchemas(spec);
      }
    }

    /**
     * The setter calls of `read_config` at positions `from` up to `to`: the
     * broker, the client, the topics, the QoS levels and the switches, in
     * the order of the source; it stops at the first that raises.
     */
    method ReadGroup(parsed: Parsed, from: nat, to: nat) returns (err: Option<PyError>)
      requires from <= to <= Steps
      modifies this`cfg
      ensures err.Some? ==> Configured(old(cfg), parsed, from) == (cfg, err)
      ensures err.None? ==> Configured(old(cfg), parsed, from) == Configured(cfg, parsed, to)
    {
      var i := from;
      err := None;
      while i < to
        invariant from <= i <= to && err.None? && Configured(old(cfg), parsed, from) == Configured(cfg, parsed, i)
      {
        var q := PropertyAt(i);
        ghost var before := cfg;
        err := Set(q, Given(parsed, q));
        if err.Some? {
          Refused(before, parsed, i);
          return;
        }
        Accepted(before, parsed, i, cfg);
        i := i + 1;
      }
    }

    /** `_load_schemas_exact`, one entry of the "topics" object at a time. */
    method LoadSchemas(spec: Option<Json>) returns (err: Option<PyError>)
      modifies this`schemas
      ensures (err, schemas) == Loaded(old(schemas), spec)
    {
      if spec.None? {
        schemas := map[];
        return None;
      }
      if !spec.value.JObj? {
        return Some(AttributeError);
      }
      var topics := GetOr(spec.value.fields, "topics", JObj(map[]));
      if !topics.JObj? {
        return Some(AttributeError);
      }
      var tm := topics.fields;
      var done, todo := {}, tm.Keys;
      while todo != {}
        invariant done + todo == tm.Keys && done !! todo
        invariant schemas == old(schemas) + Entries(tm, done)
        decreases |todo|
      {
        var t :| t in todo;
        EntriesStep(tm, done, t);
        if Kept(tm[t]) {
          OverUpdate(old(schemas), Entries(tm, done), t, tm[t].fields["schema"]);
          schemas := schemas[t := tm[t].fields["schema"]];
        }
        done, todo := done + {t}, todo - {t};
      }
      err := None;
    }

    /** `_on_message`, with `now` the epoch time and the two ISO stamps it reads. */
    method OnMessage(topic: string, payload: Option<Json>, now: real, recvIso: string, fwdIso: string,
                     valid: (Json, Json) -> bool) returns (d: Delivery)
      requires client.Some?
      modifies this`counters
      ensures (counters, d) == Received(cfg, schemas, old(counters), topic, payload, now, recvIso, fwdIso, valid)
    {
      if payload.None? || !payload.value.JObj? {
        return Discarded;
      }
      var p := payload.value.fields;
      if cfg.validateSchema && topic in schemas && !valid(schemas[topic], payload.value) {
        return Discarded;
      }
      var route := Route(cfg, topic);
      if route.Some? {
        counters := counters.(lastRecv := counters.lastRecv[route.value.key := Some(now)]);
      }
      if !KeepsTs(p) {
        p := p["ts" := JStr(recvIso)];
        p := p["ts_source" := JStr("bridge")];
      }
      p := p["_recv_ts" := JStr(recvIso)];
      if "seq" in p {
        p := p["sim_seq" := SimSeq(p["seq"])];
      }
      p := p["seq" := JInt(counters.pubSeq)];
      counters := counters.(pubSeq := counters.pubSeq + 1);
      p := p["_forward_ts" := JStr(fwdIso)];
      if route.None? {
        return Unrouted;
      }
      d := Forwarded(Message(route.value.out, p, route.value.qos, false));
    }

    /** `_on_connect`: on success, the three subscriptions and, when retained, the "online" status. */
    method OnConnect(rc: int, nowIso: string) returns (subscribed: seq<Option<string>>, status: Option<Message>)
      ensures rc == 0 ==> subscribed == [cfg.imuIn, cfg.gpsIn, cfg.battIn]
      ensures rc == 0 && cfg.retainStatus ==> status == Some(Status(cfg, "online", nowIso))
      ensures rc != 0 || !cfg.retainStatus ==> status.None?
      ensures rc != 0 ==> subscribed == []
    {
      subscribed, status := [], None;
      if rc == 0 {
        subscribed := [cfg.imuIn, cfg.gpsIn, cfg.battIn];
        if cfg.retainStatus {
          status := Some(Status(cfg, "online", nowIso));
        }
      }
    }

    /**
     * `start`: without a client, RuntimeError before anything changes;
     * otherwise the bridge runs until told to stop and then `stop` runs.
     */
    method Start(nowIso: string) returns (err: Option<PyError>, status: Option<Message>)
      modifies this`running
      ensures client.None? ==> err == Some(RuntimeError) && status.None? && running == old(running)
      ensures client.Some? ==> err.None? && !running && status == (if cfg.retainStatus then Some(Status(cfg, "offline", nowIso)) else None)
    {
      if client.None? {
        return Some(RuntimeError), None;
      }
      running := true;
      err := None;
      status := Stop(nowIso);
    }

    /** `stop`: the "offline" status when retained, and the bridge no longer runs. */
    method Stop(nowIso: string) returns (status: Option<Message>)
      modifies this`running
      ensures !running
      ensures status == (if client.Some? && cfg.retainStatus then Some(Status(cfg, "offline", nowIso)) else None)
    {
      running := false;
      status := None;
      if client.Some? && cfg.retainStatus {
        status := Some(Status(cfg, "offline", nowIso));
      }
    }
  }

  /**
   * A setter accepts exactly the values of its property's kind, raises
   * TypeError for every other value, and once it accepts, the property
   * reads back as the value.
   */
  lemma AssignMeans(c: Config, p: Property, v: Json)
    ensures Assign(c, p, v).Success? <==> Accepts(KindOf(p), v)
    ensures Assign(c, p, v).Failure? ==> Assign(c, p, v).error == TypeError
    ensures Assign(c, p, v).Success? ==> Read(Assign(c, p, v).value, p) == Stored(p, v)
  {
    match p
    case BrokerHost =>
    case BrokerPort =>
    case ClientId =>
    case RetainStatus =>
    case ImuIn =>
    case GpsIn =>
    case BattIn =>
    case ImuOut =>
    case GpsOut =>
    case BattOut =>
    case StatusTopic =>
    case QosImu =>
    case QosGps =>
    case QosBatt =>
    case ValidateSchema =>
    case SchemaPath =>
    case LogMessages =>
  }

  /** A setter changes only its own property. */
  lemma AssignFrame(c: Config, p: Property, v: Json, q: Property)
    requires Assign(c, p, v).Success? && q != p
    ensures Read(Assign(c, p, v).value, q) == Read(c, q)
  {
    match p
    case BrokerHost =>
    case BrokerPort =>
    case ClientId =>
    case RetainStatus =>
    case ImuIn =>
    case GpsIn =>
    case BattIn =>
    case ImuOut =>
    case GpsOut =>
    case BattOut =>
    case StatusTopic =>
    case QosImu =>
    case QosGps =>
    case QosBatt =>
    case ValidateSchema =>
    case SchemaPath =>
    case LogMessages =>
  }

  lemma OverUpdate(a: map<string, Json>, b: map<string, Json>, k: string, x: Json)
    ensures (a + b)[k := x] == a + b[k := x]
  {
  }

  lemma EntriesStep(tm: map<string, Json>, done: set<string>, t: string)
    requires t in tm && t !in done
    ensures Entries(tm, done + {t}) == if Kept(tm[t]) then Entries(tm, done)[t := tm[t].fields["schema"]] else Entries(tm, done)
  {
    var a, b := Entries(tm, done + {t}), Entries(tm, done);
    if Kept(tm[t]) {
      assert a.Keys == b.Keys + {t};
    } else {
      assert a.Keys == b.Keys;
    }
  }

  /** The setter calls from `i` on stop with TypeError exactly when one of them is handed a value it refuses. */
  lemma {:induction false} ConfiguredFails(c: Config, r: Parsed, i: nat)
    ensures Configured(c, r, i).1.None? <==> FirstRefused(r, i) == Steps
    ensures Configured(c, r, i).1.Some? ==> Configured(c, r, i).1 == Some(TypeError)
    decreases Steps - i
  {
    if i < Steps {
      var q := PropertyAt(i);
      AssignMeans(c, q, Given(r, q));
      var a := Assign(c, q, Given(r, q));
      if a.Success? {
        ConfiguredFails(a.value, r, i + 1);
      }
    }
  }

  /** No setter call refuses its value exactly when the reader's values are `Acceptable`. */
  lemma NoneRefused(r: Parsed)
    ensures FirstRefused(r, 0) == Steps <==> Acceptable(r)
  {
    NoneRefusedFrom4(r);
    NoneRefusedFrom7(r);
    NoneRefusedFrom11(r);
  }

  lemma RefusedStep(r: Parsed, i: nat)
    requires i < Steps
    ensures FirstRefused(r, i) == Steps <==>
      Accepts(KindOf(PropertyAt(i)), Given(r, PropertyAt(i))) && FirstRefused(r, i + 1) == Steps
  {
  }

  lemma NoneRefusedFrom4(r: Parsed)
    ensures FirstRefused(r, 4) == Steps <==>
      (!Blank(r.imuIn) && !Blank(r.gpsIn) && !Blank(r.battIn) && FirstRefused(r, 7) == Steps)
  {
    RefusedStep(r, 4);
    RefusedStep(r, 5);
    RefusedStep(r, 6);
  }

  lemma NoneRefusedFrom7(r: Parsed)
    ensures FirstRefused(r, 7) == Steps <==>
      (!Blank(r.imuOut) && !Blank(r.gpsOut) && !Blank(r.battOut) && !Blank(r.statusTopic) && FirstRefused(r, 11) == Steps)
  {
    RefusedStep(r, 7);
    RefusedStep(r, 8);
    RefusedOutputs(r);
  }

  lemma RefusedOutputs(r: Parsed)
    ensures FirstRefused(r, 9) == Steps <==> (!Blank(r.battOut) && !Blank(r.statusTopic) && FirstRefused(r, 11) == Steps)
  {
    RefusedStep(r, 9);
    RefusedStep(r, 10);
  }

  lemma NoneRefusedFrom11(r: Parsed)
    ensures FirstRefused(r, 11) == Steps <==> (r.qosImu >= 0 && r.qosGps >= 0 && r.qosBatt >= 0 && r.schemaPath != "")
  {
    RefusedStep(r, 11);
    RefusedStep(r, 12);
    RefusedStep(r, 13);
    RefusedSwitches(r);
  }

  lemma RefusedSwitches(r: Parsed)
    ensures FirstRefused(r, 14) == Steps <==> r.schemaPath != ""
  {
    RefusedStep(r, 14);
    RefusedStep(r, 15);
    RefusedStep(r, 16);
  }

  /** A setter call that refuses its value ends the sequence there, with the configuration as it was. */
  lemma Refused(c: Config, r: Parsed, i: nat)
    requires i < Steps && Assign(c, PropertyAt(i), Given(r, PropertyAt(i))).Failure?
    ensures Configured(c, r, i) == (c, Some(Assign(c, PropertyAt(i), Given(r, PropertyAt(i))).error))
  {
  }

  /** A setter call that accepts its value hands the new configuration to the next one. */
  lemma Accepted(c: Config, r: Parsed, i: nat, c': Config)
    requires i < Steps && Assign(c, PropertyAt(i), Given(r, PropertyAt(i))) == Success(c')
    ensures Configured(c, r, i) == Configured(c', r, i + 1)
  {
  }

  /** With every value accepted, the setter calls leave the reader's configuration, whatever was there before. */
  lemma ConfiguredAll(c: Config, r: Parsed)
    requires Acceptable(r)
    ensures Configured(c, r, 0) == (ConfigOf(r), None)
  {
    var c4 := c.(brokerHost := Some(r.host), brokerPort := Some(r.port), clientId := Some(r.clientId), retainStatus := r.retainStatus);
    ConfiguredBroker(c, r);
    var c7 := c4.(imuIn := Some(r.imuIn), gpsIn := Some(r.gpsIn), battIn := Some(r.battIn));
    ConfiguredInputs(c4, r);
    var c11 := c7.(imuOut := Some(r.imuOut), gpsOut := Some(r.gpsOut), battOut := Some(r.battOut), statusTopic := Some(r.statusTopic));
    ConfiguredOutputs(c7, r);
    var c14 := c11.(qosImu := r.qosImu, qosGps := r.qosGps, qosBatt := r.qosBatt);
    ConfiguredQos(c11, r);
    ConfiguredSwitches(c14, r);
  }

  lemma ConfiguredBroker(c: Config, r: Parsed)
    requires r.port > 0
    ensures Configured(c, r, 0) ==
      Configured(c.(brokerHost := Some(r.host), brokerPort := Some(r.port), clientId := Some(r.clientId), retainStatus := r.retainStatus), r, 4)
  {
  }

  lemma ConfiguredInputs(c: Config, r: Parsed)
    requires !Blank(r.imuIn) && !Blank(r.gpsIn) && !Blank(r.battIn)
    ensures Configured(c, r, 4) == Configured(c.(imuIn := Some(r.imuIn), gpsIn := Some(r.gpsIn), battIn := Some(r.battIn)), r, 7)
  {
    var c5 := c.(imuIn := Some(r.imuIn));
    var c6 := c5.(gpsIn := Some(r.gpsIn));
    Accepted(c, r, 4, c5);
    Accepted(c5, r, 5, c6);
    Accepted(c6, r, 6, c6.(battIn := Some(r.battIn)));
  }

  lemma ConfiguredOutputs(c: Config, r: Parsed)
    requires !Blank(r.imuOut) && !Blank(r.gpsOut) && !Blank(r.battOut) && !Blank(r.statusTopic)
    ensures Configured(c, r, 7) ==
      Configured(c.(imuOut := Some(r.imuOut), gpsOut := Some(r.gpsOut), battOut := Some(r.battOut), statusTopic := Some(r.statusTopic)), r, 11)
  {
    var c8 := c.(imuOut := Some(r.imuOut));
    Accepted(c, r, 7, c8);
    Accepted(c8, r, 8, c8.(gpsOut := Some(r.gpsOut)));
    ConfiguredLastOutputs(c8.(gpsOut := Some(r.gpsOut)), r);
  }

  lemma ConfiguredLastOutputs(c: Config, r: Parsed)
    requires !Blank(r.battOut) && !Blank(r.statusTopic)
    ensures Configured(c, r, 9) == Configured(c.(battOut := Some(r.battOut), statusTopic := Some(r.statusTopic)), r, 11)
  {
    var c10 := c.(battOut := Some(r.battOut));
    Accepted(c, r, 9, c10);
    Accepted(c10, r, 10, c10.(statusTopic := Some(r.statusTopic)));
  }

  lemma ConfiguredQos(c: Config, r: Parsed)
    requires r.qosImu >= 0 && r.qosGps >= 0 && r.qosBatt >= 0
    ensures Configured(c, r, 11) == Configured(c.(qosImu := r.qosImu, qosGps := r.qosGps, qosBatt := r.qosBatt), r, 14)
  {
    var c12 := c.(qosImu := r.qosImu);
    var c13 := c12.(qosGps := r.qosGps);
    Accepted(c, r, 11, c12);
    Accepted(c12, r, 12, c13);
    Accepted(c13, r, 13, c13.(qosBatt := r.qosBatt));
  }

  lemma ConfiguredSwitches(c: Config, r: Parsed)
    requires r.schemaPath != ""
    ensures Configured(c, r, 14) ==
      (c.(validateSchema := r.validateSchema, schemaPath := Some(r.schemaPath), logMessages := r.logMessages), None)
  {
    var c15 := c.(validateSchema := r.validateSchema);
    var c16 := c15.(schemaPath := Some(r.schemaPath));
    Accepted(c, r, 14, c15);
    Accepted(c15, r, 15, c16);
    Accepted(c16, r, 16, c16.(logMessages := r.logMessages));
  }

  /**
   * `read_config`'s setter calls: with values every setter accepts, the
   * configuration becomes exactly the file's, whatever it was before;
   * otherwise they raise TypeError.
   */
  lemma ReadConfigOutcome(c: Config, r: Parsed)
    ensures Configured(c, r, 0).1.None? <==> Acceptable(r)
    ensures Acceptable(r) ==> Configured(c, r, 0).0 == ConfigOf(r)
    ensures !Acceptable(r) ==> Configured(c, r, 0).1 == Some(TypeError)
  {
    ConfiguredFails(c, r, 0);
    NoneRefused(r);
    if Acceptable(r) {
      ConfiguredAll(c, r);
    }
  }

  /**
   * The stores happen in order and stay when a later one raises: a blank
   * input topic leaves the broker and client settings from the file and
   * every later property as it was.
   */
  lemma PartialUpdate(c: Config, r: Parsed)
    requires r.port > 0 && Blank(r.imuIn)
    ensures Configured(c, r, 0) ==
      (c.(brokerHost := Some(r.host), brokerPort := Some(r.port), clientId := Some(r.clientId), retainStatus := r.retainStatus), Some(TypeError))
  {
    var c4 := c.(brokerHost := Some(r.host), brokerPort := Some(r.port), clientId := Some(r.clientId), retainStatus := r.retainStatus);
    ConfiguredBroker(c, r);
    Refused(c4, r, 4);
  }

  /**
   * What `_on_message` does to its counters: a discarded message leaves them
   * as they were; any other message takes the next sequence number, even on
   * a topic it does not route, and stamps the receive time of its own input
   * only; a message is forwarded exactly when its topic is routed.
   */
  lemma ReceivedCounters(c: Config, schemas: map<string, Json>, k: Counters, topic: string, payload: Option<Json>,
                         now: real, recvIso: string, fwdIso: string, valid: (Json, Json) -> bool)
    ensures var (k', d) := Received(c, schemas, k, topic, payload, now, recvIso, fwdIso, valid);
      (d.Discarded? <==> Discards(c, schemas, topic, payload, valid)) &&
      (d.Discarded? ==> k' == k) &&
      (!d.Discarded? ==> k'.pubSeq == k.pubSeq + 1) &&
      (d.Forwarded? <==> !Discards(c, schemas, topic, payload, valid) && Route(c, topic).Some?) &&
      (d.Unrouted? ==> k'.lastRecv == k.lastRecv) &&
      (d.Forwarded? ==> k'.lastRecv == k.lastRecv[Route(c, topic).value.key := Some(now)])
  {
  }

  /**
   * The forwarded message: on the output topic and at the QoS of its input,
   * not retained, numbered with the sequence number it took, stamped with
   * the receive and forward times, its own "ts" kept only when it is a
   * string ending in "Z", the sender's "seq" kept as "sim_seq", and every
   * other field as it came.
   */
  lemma ForwardedPayload(c: Config, schemas: map<string, Json>, k: Counters, topic: string, payload: Option<Json>,
                         now: real, recvIso: string, fwdIso: string, valid: (Json, Json) -> bool)
    requires Received(c, schemas, k, topic, payload, now, recvIso, fwdIso, valid).1.Forwarded?
    ensures var m := Received(c, schemas, k, topic, payload, now, recvIso, fwdIso, valid).1.msg;
      var p := payload.value.fields;
      m.topic == Route(c, topic).value.out && m.qos == Route(c, topic).value.qos && !m.retain &&
      m.payload["seq"] == JInt(k.pubSeq) &&
      m.payload["_recv_ts"] == JStr(recvIso) && m.payload["_forward_ts"] == JStr(fwdIso) &&
      (KeepsTs(p) ==> m.payload["ts"] == p["ts"]) &&
      (!KeepsTs(p) ==> m.payload["ts"] == JStr(recvIso) && m.payload["ts_source"] == JStr("bridge")) &&
      ("seq" in p ==> m.payload["sim_seq"] == SimSeq(p["seq"])) &&
      (forall f :: f in p && f !in {"ts", "ts_source", "_recv_ts", "sim_seq", "seq", "_forward_ts"} ==> f in m.payload && m.payload[f] == p[f])
  {
  }
}
