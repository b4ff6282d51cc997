# DigitalTwin telemetry core, modelled in Dafny

This project models the core of the DigitalTwin system. DigitalTwin is a shore-side telemetry collector for an unmanned surface vessel, together with the simulators that feed it test traffic. Each source file becomes one Dafny module. Where the source updates state in place, the model uses a class whose methods are proved against specification functions. Where the source is pure, the model uses functions and lemmas.

- **Telemetry backend** (`hmi/backend/app/main.py`):
  - `Telemetry`: source arbitration between live (`sensor/...`) and simulated (`sim/...`) topics, the per-message validity rules, the broadcast tick with its 10 s timeout and system-state aggregation, and the simulation start/stop baselines. `Health` holds the rules themselves.
  - `Radar`: the radar track manager (point matching, append, eviction, list replacement, projection).
  - `Recording` and `Replay`: the recording and replay sessions. The replay runner is one scheduling step of the asyncio task at a time.
  - `Sanitize`: `_sanitize_filename`.
- **Raw recorder** (`mqtt_recorder/mqtt_recorder.py`): `RawRecorder`, with `Base64` (section 4 of RFC 4648) for payloads and `TopicFilter` (section 4.7 of MQTT 3.1.1) for topic filters.
- **GPS simulator**:
  - `Nmea`: the checksum framing of NMEA 0183 sentences.
  - `GpsSettings`: the validating setters and the `[gps]` reader.
  - `GpsSim`: the `NEOM8N` receiver.
  - `GpsBridge`: the control topic and the anchored tick schedule of `GPSPublisher`.
- **ESP32 bridge** (`Esp32`): validating setters, configuration, schema loading and the message handler that filters, stamps, renumbers and routes.
- **IMU simulator**:
  - `ImuEnums`: register codes.
  - `AccelSimulator`, `GyroSimulator` and `MagSimulator`: the per-sensor models.
  - `Vectors`: the numpy vector operations and int16 quantisation.
  - `ImuSim`: the `MPU9250` facade with its setters, derived rates, initialisation, sampling and `simulate`.
  - `ImuConfig`: the minimal `read_config` of `imu.py`.
- **Routes and scenarios**:
  - `RouteSim`: `simulators/route.py`.
  - `Scenarios`: `simulators/scenarios/route.py`.
  - `ScenarioUtils`: `simulators/scenarios/utils.py`.
  - `RunScenario`: `simulators/scripts/run_scenario.py`.

Shared vocabulary lives in `Wrappers`, `Json`, `Text` and `PyMath`:
- Option and Result types, where a Result carries the Python exception raised;
- decoded JSON values;
- Python's floor modulo, round-half-even and int16 clipping.

`Geodesy` takes the floating-point trigonometry as a parameter and models only how its results are normalised.

The following are parameters or inputs, never computed by the model:
- the clock ("now");
- the random draws of every noise generator;
- JSON decoding, jsonschema verdicts and ISO-8601 stamps;
- trigonometric and geodesic functions;
- number formatting.

## Model

| member | source | states |
|---|---|---|
| RawRecorder.EncodePayload | mqtt_recorder/mqtt_recorder.py:16-20 | `encode_payload` always decodes back with `decode_payload`, and its text is 4 characters per started 3 bytes |
| RawRecorder.AnyFilterMatchesSpec | mqtt_recorder/mqtt_recorder.py:50 | `any(...)` over the filters holds exactly when some filter matches the topic |
| RawRecorder.MatchesTopicSpec | mqtt_recorder/mqtt_recorder.py:47-50 | `matches_topic` passes a topic exactly when the filter list is empty or some filter matches it |
| RawRecorder.Recorder.constructor | mqtt_recorder/mqtt_recorder.py:24 | the record list starts empty |
| RawRecorder.Recorder.OnMessage | mqtt_recorder/mqtt_recorder.py:26-31 | `on_message` appends exactly one record (time, topic, base64 payload), in arrival order |
| RawRecorder.Insert | mqtt_recorder/mqtt_recorder.py:57 | inserting into a sorted list keeps it sorted by timestamp and adds exactly that record |
| RawRecorder.SortByTimestamp | mqtt_recorder/mqtt_recorder.py:57 | `messages.sort(key=timestamp)`: sorted by timestamp and a permutation of the records |
| RawRecorder.InsertStable | mqtt_recorder/mqtt_recorder.py:57 | inserting a record puts it ahead of every record with its timestamp and keeps their order |
| RawRecorder.SortStable | mqtt_recorder/mqtt_recorder.py:57 | Python's sort is stable: for every timestamp, the records carrying it come out in their recorded order |
| RawRecorder.ReplayMode | mqtt_recorder/mqtt_recorder.py:53-71 | `replay_mode` gives exactly `Replay` of the plan (sorted, filtered, each target `replay_start` plus the record's offset); an empty file publishes nothing; what is published follows the plan (each at or after its target, payload decoded), all of it when the replay finishes; a stop on decoding happens at a payload that does not decode; a stop for lack of clock readings leaves an item unpublished whose target every reading of its wait was before |
| RawRecorder.ReplaySorted | mqtt_recorder/mqtt_recorder.py:58-71 | once the records are sorted: nothing for an empty list, else exactly `Replay` of the plan of the sorted list |
| RawRecorder.ReplayLoop | mqtt_recorder/mqtt_recorder.py:61-71 | the `for` loop over the sorted records computes exactly `Replayed` from the first item and the first clock reading |
| RawRecorder.ReplayNext | mqtt_recorder/mqtt_recorder.py:64-71 | one turn for record `i`: a filtered record changes nothing; otherwise the turn publishes the next planned item as `Replayed` does, or stops the loop with the outcome `Replayed` gives at that point |
| RawRecorder.Publish | mqtt_recorder/mqtt_recorder.py:68-71 | waits for the item's target and publishes it with its decoded payload, exactly one step of `Replayed`; a decode stop means the payload does not decode |
| RawRecorder.WaitUntil | mqtt_recorder/mqtt_recorder.py:69-70 | the busy wait reads the clock until a reading reaches the target: it stops at `FirstReach`, every earlier reading was before the target, and running out of readings is reported exactly when no reading reaches it |
| RawRecorder.FirstReach | mqtt_recorder/mqtt_recorder.py:69-70 | the first reading from a position on that reaches the target: every reading before it is below the target, and it reaches the target unless the readings ran out |
| RawRecorder.Replayed | mqtt_recorder/mqtt_recorder.py:64-71 | the replay publishes all of the remaining plan exactly when it finishes, and strictly less when it stops early |
| RawRecorder.DecodingsAt | mqtt_recorder/mqtt_recorder.py:71 | the payload the replay publishes for item `k` is `decode_payload` of that item's text |
| RawRecorder.ReplayedFollows | mqtt_recorder/mqtt_recorder.py:64-71 | each published message has its item's topic and decoded payload and is sent at a reading at or after its target, in plan order; a decode stop is at an item whose payload does not decode |
| RawRecorder.ReplayFollows | mqtt_recorder/mqtt_recorder.py:64-71 | the same for the whole plan with the payloads decoded by `decode_payload` |
| RawRecorder.ExhaustedBelow | mqtt_recorder/mqtt_recorder.py:69-70 | a replay that runs out of clock readings stops before the end of the plan, and every reading of its last wait is below the pending item's target |
| RawRecorder.ReplayedEnough | mqtt_recorder/mqtt_recorder.py:64-71 | with enough clock readings at or after every remaining target, the replay never runs out of clock, and it finishes exactly when every remaining payload decodes |
| RawRecorder.FinishesWhenReached | mqtt_recorder/mqtt_recorder.py:64-71 | with payloads that all decode, non-decreasing targets and the last readings at or after the last target, the whole plan is published and the replay finishes |
| RawRecorder.PlanPayloads | mqtt_recorder/mqtt_recorder.py:57-71 | every planned payload is the payload of a record of the file |
| RawRecorder.EncodedDecodes | mqtt_recorder/mqtt_recorder.py:16-20 | a text `encode_payload` produced always decodes |
| RawRecorder.RecordedReplayFinishes | mqtt_recorder/mqtt_recorder.py:16-71 | a file the recorder wrote, replayed with as many final clock readings as planned messages, all at or after the last target, publishes every planned message and finishes |
| RawRecorder.ScheduleTargets | mqtt_recorder/mqtt_recorder.py:61-68 | for sorted records with offsets from a time no later than the first, targets never fall before the replay start and never decrease |
| RawRecorder.PlanTargets | mqtt_recorder/mqtt_recorder.py:57-68 | the replay targets start at the replay start and never decrease |
| RawRecorder.ScheduleItems | mqtt_recorder/mqtt_recorder.py:64-68 | every scheduled item is a record whose topic passes the filters, with its own topic and payload; with no filters every record is scheduled |
| RawRecorder.RecordedNeverFails | mqtt_recorder/mqtt_recorder.py:16-20 | a file the recorder wrote never stops the replay on a payload that does not decode |
| Base64.Encode | mqtt_recorder/mqtt_recorder.py:16-17 | `b64encode` yields 4 characters per started group of 3 bytes |
| Base64.EncodedAlphabet | mqtt_recorder/mqtt_recorder.py:16-17 | every encoded character is a letter of the base64 alphabet or '=' padding |
| Base64.RoundTrip | mqtt_recorder/mqtt_recorder.py:16-20 | `decode_payload(encode_payload(b)) == b` for every byte string |
| Base64.EncodeInjective | mqtt_recorder/mqtt_recorder.py:16-17 | two payloads with the same recorded text are the same payload |
| TopicFilter.LiteralMatch | mqtt_recorder/mqtt_recorder.py:50 | a filter without wildcards matches a topic exactly when their levels are equal |
| TopicFilter.PrefixMatch | mqtt_recorder/mqtt_recorder.py:50 | a filter `p/#` with literal `p` matches exactly the topics whose levels start with `p` |
| TopicFilter.SingleLevelWildcard | mqtt_recorder/mqtt_recorder.py:50 | the filter `+` matches every one-level topic not starting with '$' |
| TopicFilter.MultiLevelWildcard | mqtt_recorder/mqtt_recorder.py:50 | the filter `#` matches a topic exactly when its name does not start with '$' |
| Sanitize.SafeChars | hmi/backend/app/main.py:545 | the result has the input's length; each character is kept when it is a letter, digit, '-' or '_' and is '_' otherwise |
| Sanitize.Stem | hmi/backend/app/main.py:545-547 | the stem of the stripped name is never empty and holds only letters, digits, '-' and '_' ("recording" when nothing is left) |
| Sanitize.NoJsonSuffix | hmi/backend/app/main.py:548 | a stem of kept characters never ends with ".json" in any case |
| Sanitize.SanitizeShape | hmi/backend/app/main.py:543-550 | the suffix test never succeeds, so the file name is always the stem followed by ".json" |
| Sanitize.SanitizeSafe | hmi/backend/app/main.py:543-550 | the file name is longer than ".json", ends with ".json", and before that holds only kept characters, so no '/' or '\' can appear in it |
| Sanitize.BlankName | hmi/backend/app/main.py:545-547 | a name of spaces only (or an empty name) gives "recording.json" |
| Sanitize.DefaultName | hmi/backend/app/main.py:546-549 | "recording" gives "recording.json" |
| Sanitize.DotJsonExample | hmi/backend/app/main.py:545-549 | "a.json" becomes "a_json.json": the '.' is replaced before the suffix test |
| Sanitize.Resanitize | hmi/backend/app/main.py:543-550 | sanitising a sanitised name turns its ".json" into "_json" and appends ".json" again, so the sanitiser is not idempotent |
| Sanitize.SuffixedSanitized | hmi/backend/app/main.py:543-550 | a kept stem followed by ".json" sanitises to the stem followed by "_json.json" |
| Radar.FirstNear | hmi/backend/app/main.py:147-154 | the index of the first track within 5 of the detection in distance, bearing and heading, or the list length when none is near |
| Radar.FirstNearUnique | hmi/backend/app/main.py:147-154 | any index that is near and has no near track before it is the one the loop stops at |
| Radar.UpsertSpec | hmi/backend/app/main.py:147-158 | a detection overwrites exactly the first near track and changes no other, or is appended as the only new track; it overwrites exactly when some track is near |
| Radar.EvictSpec | hmi/backend/app/main.py:159 | after eviction a track is in the list exactly when it was before and was seen at most 5 s ago; the list never grows |
| Radar.EvictAppend | hmi/backend/app/main.py:159 | eviction keeps the order: it distributes over concatenation |
| Radar.EvictAllFresh | hmi/backend/app/main.py:159 | a list of fresh tracks is left unchanged |
| Radar.Project | hmi/backend/app/main.py:160-163 | the published list holds each track's distance, bearing and heading, one entry per track, in order |
| Radar.TracksOf | hmi/backend/app/main.py:446-454 | the list comprehension: on success one track per element, each converted with `float` and stamped `now`; it fails exactly when some element fails to convert |
| Radar.MissingFieldIsZero | hmi/backend/app/main.py:449-451 | a field missing from a list element reads as 0 |
| Radar.ReplaceOrder | hmi/backend/app/main.py:446-459 | a list message of well-formed tracks is published whole and in order |
| Radar.TrackManager.constructor | hmi/backend/app/main.py:113 | both track lists start empty |
| Radar.TrackManager.UpdatePoint | hmi/backend/app/main.py:145-163 | the new track list is the evicted upsert of the detection; the detection is in it, every track in it is fresh, and the published list is its projection |
| Radar.TrackManager.ReplaceAll | hmi/backend/app/main.py:440-459 | the radar topics: a payload that is neither list nor object raises AttributeError; a list (or a "tracks" list) replaces every track, all stamped `now`; a failed conversion raises and leaves both lists; a payload without a list changes nothing |
| Radar.TrackManager.OnTrack | hmi/backend/app/main.py:433-438 | the track topic: a payload that is not an object raises AttributeError; with all three fields present and converted the detection is matched as in `_update_radar_track`; otherwise both lists stay as they were |
| Health.StateFromValidity | hmi/backend/app/main.py:316 | "Running" exactly for a valid message, "Degraded" exactly for an invalid one |
| Health.GpsIgnoresSatsInView | hmi/backend/app/main.py:302-316 | GPS validity does not depend on `sats_in_view` at all |
| Health.ZeroLatitudeInvalid | hmi/backend/app/main.py:308 | a zero latitude always makes a live GPS message invalid |
| Health.ImuValidChannels | hmi/backend/app/main.py:397-404 | an IMU message is valid exactly when ax, ay, az, gx, gy and gz are all finite numbers |
| Health.ValidImuNeverAborts | hmi/backend/app/main.py:332-404 | a valid IMU message, with a numeric magnetometer triple when all three are present, never makes the handler raise before the validity check |
| Health.StartSimulation | hmi/backend/app/main.py:802-807 | START turns the gate on, captures the state and the last live time as baseline, and marks the sensor "Simulated"; the live data stays |
| Health.StopSimulation | hmi/backend/app/main.py:808-823 | STOP turns the gate off and sets the state `RestoreOnStop` gives; the live data and baseline stay |
| Health.Tick | hmi/backend/app/main.py:474-490 | a broadcast tick changes only the sensor's state, to the one `TickSensor` gives |
| Health.TickIdempotent | hmi/backend/app/main.py:474-490 | a second tick at the same time changes nothing |
| Health.TimeoutPersists | hmi/backend/app/main.py:478-479 | a live sensor silent for more than 10 s is "Unavailable" and stays so at every later tick |
| Health.TickKeepsFresh | hmi/backend/app/main.py:476-479 | a tick leaves the state of a sensor never heard live, or heard within 10 s, as it is |
| Health.GatedTicks | hmi/backend/app/main.py:480-481 | while the gate is on, every tick keeps the sensor "Simulated" |
| Health.SimulationIffGate | hmi/backend/app/main.py:492-494 | the system is "Simulation" exactly when a simulation gate is on |
| Health.OkIff | hmi/backend/app/main.py:492-510 | the system is "OK" exactly when no gate is on, the ESP32 link is not lost and both sensors are "Running" |
| Health.InitializingIff | hmi/backend/app/main.py:492-508 | the system is "Initializing" exactly when no gate is on, the link is not lost and neither sensor was initialised |
| Health.NeverSeenNeverLost | hmi/backend/app/main.py:496-498 | an ESP32 link never heard never makes the system "Unavailable" |
| Health.StopRestoresBaseline | hmi/backend/app/main.py:815-817 | with no new live data since the start, STOP restores the captured state |
| Health.StartThenStop | hmi/backend/app/main.py:802-823 | START then STOP with no live data between gives back the prior state ("Not initialized" for a sensor never live) and turns the gate off |
| Health.DoubleStartThenStop | hmi/backend/app/main.py:802-817 | a second START captures "Simulated" as baseline, so the following STOP leaves a live sensor "Simulated" with its gate off |
| Health.StopWithoutLiveData | hmi/backend/app/main.py:813-814 | without any live data STOP always gives "Not initialized" |
| Health.StopAfterNewData | hmi/backend/app/main.py:818-823 | after new live data STOP judges afresh: "Unavailable" past 10 s, otherwise "Running" exactly when the last live message was valid |
| Health.ControlVerb | hmi/backend/app/main.py:799-801 | the control verb exists exactly when the "control" field is a string |
| Telemetry.ChannelRoundTrip | hmi/backend/app/main.py:231-442 | every named topic reaches its own branch of the handler's `if`/`elif` chain |
| Telemetry.RadarListTopics | hmi/backend/app/main.py:440-443 | both radar list topics take the list branch |
| Telemetry.BatteryOutcome | hmi/backend/app/main.py:406-418 | the battery branch raises exactly when the payload is not an object or its "soc" is present and not a number |
| Telemetry.Backend.constructor | hmi/backend/app/main.py:55-83 | both sensors "Not initialized" with no live data and gates off, the system "Initializing", no radar tracks, recording idle |
| Telemetry.Backend.HandleGps | hmi/backend/app/main.py:231-318 | the GPS branch (`GpsHandled`): a gated message changes nothing; a live message marks the ESP32 and GPS as seen; a handler that raises stops there; otherwise the fix is kept and a live message sets the validity and state |
| Telemetry.Backend.HandleImu | hmi/backend/app/main.py:318-404 | the IMU branch (`ImuHandled`): the same arbitration and live marking; roll and pitch become known once an accelerometer triple passes; a live message that gets through sets the validity and state |
| Telemetry.Backend.OnMessage | hmi/backend/app/main.py:206-460 | `_on_message`: undecodable JSON changes nothing; the recording hook appends exactly one entry when the recording takes the topic; each topic then takes its branch with the GPS, IMU, battery, status, track and radar contracts above |
| Telemetry.Backend.BroadcastTick | hmi/backend/app/main.py:473-510 | each sensor gets its timeout rule (`Health.Tick`), then the system state is computed from the results |
| Telemetry.Backend.SimImuControl | hmi/backend/app/main.py:795-828 | `sim_imu`: START starts the IMU simulation, STOP ends it, anything else changes nothing; the GPS and the rest stay |
| Telemetry.Backend.SimGpsControl | hmi/backend/app/main.py:846-870 | `sim_gps`: VECTOR or ROUTE starts the GPS simulation, STOP ends it, anything else changes nothing; the IMU and the rest stay |
| Recording.TopicsOf | hmi/backend/app/main.py:585-588 | a topic filter exists exactly for a non-empty list, and then holds `str` of each element in order; otherwise every topic is recorded |
| Recording.SelectedSpec | hmi/backend/app/main.py:220 | with no topic list every topic is selected; with one exactly the listed topics are |
| Recording.EmptyTopicListRecordsAll | hmi/backend/app/main.py:585-588 | an empty or absent topic list records every topic |
| Recording.DefaultFileName | hmi/backend/app/main.py:584 | a start request without "filename" records to "recording.json" |
| Recording.EntryDecodes | hmi/backend/app/main.py:221-225 | every buffered payload decodes back to the raw bytes of its message |
| Recording.Session.constructor | hmi/backend/app/main.py:123-130 | not recording, not paused, every topic, empty buffer, no file, no start time, count 0 |
| Recording.Session.Start | hmi/backend/app/main.py:581-599 | `recording_start`: the sanitised file name, an empty buffer, count 0, the topic filter and the start time; active and not paused, whatever ran before |
| Recording.Session.Pause | hmi/backend/app/main.py:602-607 | `recording_pause`: paused afterwards exactly when it was paused or active; nothing else changes |
| Recording.Session.Resume | hmi/backend/app/main.py:610-615 | `recording_resume`: unpaused when active; nothing else changes |
| Recording.Session.Offer | hmi/backend/app/main.py:217-227 | the recording hook: while active, unpaused and the topic selected, exactly one entry (time, topic, base64 of the raw bytes) is appended and counted; otherwise nothing changes |
| Recording.Session.Stop | hmi/backend/app/main.py:618-634 | `recording_stop`: inactive, it reports no file and 0; active, it ends the recording, empties the buffer, forgets the file and reports the old file and the buffered count, or 0 when the write fails |
| Replay.DeliveryOf | hmi/backend/app/main.py:662-670 | a message the runner reaches is published at most once, exactly when it is an object whose topic is selected and whose payload decodes, and then as that topic and those bytes |
| Replay.Delivered | hmi/backend/app/main.py:649-671 | what is published for the first `n` messages never outnumbers them |
| Replay.AllDueMeans | hmi/backend/app/main.py:653-659 | the recursive "every message in the range is due" is the range quantifier it stands for, in both directions |
| Replay.ReplaySession.constructor | hmi/backend/app/main.py:132-141 | inactive, unpaused, no file, no messages, count and index 0, no runner |
| Replay.ReplaySession.Start | hmi/backend/app/main.py:692-724 | `replay_start`: an empty name, a missing file and an unreadable file are refused with the endpoint's error text and change nothing; a loaded file resets count, index and published list, becomes active and unpaused, and starts a fresh runner, cancelling a suspended one |
| Replay.ReplaySession.Load | hmi/backend/app/main.py:711-724 | the part after the file is read: messages, file and topic filter set, counters reset, active and unpaused, fresh runner, a suspended runner marked cancelled |
| Replay.ReplaySession.Pause | hmi/backend/app/main.py:727-732 | `replay_pause`: paused afterwards exactly when it was paused or active; nothing else changes |
| Replay.ReplaySession.Resume | hmi/backend/app/main.py:735-744 | `replay_resume`: while active, unpaused and the start rebased so the message at the cursor is due now; it raises exactly when that message's timestamp does not convert, after unpausing, with AttributeError for an element that is no object, ValueError for text and TypeError for null, a list or an object |
| Replay.ReplaySession.Stop | hmi/backend/app/main.py:747-755 | `replay_stop`: inactive, runner cancelled; nothing else changes |
| Replay.ReplaySession.Step | hmi/backend/app/main.py:637-676 | one scheduling of the runner: a cancelled runner's `finally` runs first; it leaves `active` false whenever it ends, ends at once on an empty list, suspends only while active (paused, or waiting for a message not yet due), moves the cursor only forward, publishes nothing while paused, and every message it goes past was due |
| Replay.ReplaySession.Begin | hmi/backend/app/main.py:640-646 | the runner's first scheduling: the start is now and the base is the first timestamp; an empty list ends it at once; every message it goes past was due |
| Replay.ReplaySession.RunFrom | hmi/backend/app/main.py:647-671 | the runner's loop entered at its condition or inside a wait: the cursor moves only forward, nothing moves while paused, and every message gone past was due |
| Replay.ReplaySession.Loop | hmi/backend/app/main.py:647-671 | the loop from its condition with the asyncio task running: forward cursor, nothing while paused, every message gone past due |
| Replay.ReplaySession.Turn | hmi/backend/app/main.py:648-671 | one turn of the loop: paused it suspends; otherwise it either suspends with nothing changed or goes past exactly the message at the cursor, which was due |
| Replay.ReplaySession.AfterWait | hmi/backend/app/main.py:655-671 | after the wait: inactive, it leaves the loop; paused, it rebases the start and suspends; otherwise the target has passed and it goes past the message |
| Replay.ReplaySession.Publish | hmi/backend/app/main.py:662-671 | going past the message at the cursor appends exactly its delivery to what was published and advances the cursor by one |
| Nmea.HexDigits | simulators/gps_sim/lib/gps_sim.py:380 | the hexadecimal text has one digit below 16, two from 16 to 255, never none |
| Nmea.Hex02 | simulators/gps_sim/lib/gps_sim.py:380 | `:02X` gives at least two digits, exactly two for a byte |
| Nmea.HexDigitsRoundTrip | simulators/gps_sim/lib/gps_sim.py:380 | the upper-case hexadecimal digits read back as the number |
| Nmea.Hex02RoundTrip | simulators/gps_sim/lib/gps_sim.py:380 | the zero-padded digits read back as the number |
| Nmea.WithChecksum | simulators/gps_sim/lib/gps_sim.py:376-380 | `_with_checksum`: the loop's accumulated exclusive-or gives the framed sentence `$body*HH` plus the terminator |
| Nmea.FramedPrefix | simulators/gps_sim/lib/gps_sim.py:380 | a framed sentence starts with '$' followed by the body |
| Nmea.AsciiXor | simulators/gps_sim/lib/gps_sim.py:377-379 | the checksum of an ASCII body is below 128 |
| Nmea.AsciiChecksumWidth | simulators/gps_sim/lib/gps_sim.py:380 | an ASCII body's checksum is exactly two hexadecimal digits |
| Nmea.ChecksumRecomputed | simulators/gps_sim/tests/test_gps.py:73-80 | for an ASCII body with no '*', the text between '$' and the first '*' is the body, and the two characters after it are its checksum as the tests recompute it |
| Nmea.FramedExample | simulators/gps_sim/tests/test_gps.py:107 | the sentence for body `GPGGA` is `$GPGGA*56` plus CR LF |
| GpsSim.KindOf | simulators/gps_sim/lib/gps_sim.py:353-370 | a configured name selects GGA, RMC or VTG exactly when its upper-case form is that name, and nothing otherwise |
| GpsSim.Pad02 | simulators/gps_sim/lib/gps_sim.py:357 | `:02d` of a satellite count below 100 is two digits that read back as the count |
| GpsSim.Decimal | simulators/gps_sim/lib/gps_sim.py:357 | the decimal digits of a count read back as the count; one digit below 10, two below 100 |
| GpsSim.BodyFields | simulators/gps_sim/lib/gps_sim.py:356-368 | every sentence body starts with its talker and type tag and has further fields |
| GpsSim.Frames | simulators/gps_sim/lib/gps_sim.py:352-371 | one framed sentence per selected type |
| GpsSim.Truth | simulators/gps_sim/lib/gps_sim.py:316-332 | the truth comes from the motion provider when there is one; otherwise from the scenario at the configured altitude, with the speed in knots and no climb |
| GpsSim.SampleGuard | simulators/gps_sim/lib/gps_sim.py:310-313 | RuntimeError exactly before `init_sim`, ValueError exactly when time runs backwards, otherwise no error |
| GpsSim.SampleTime | simulators/gps_sim/lib/gps_sim.py:385 | sample times are non-negative and the first is 0 |
| GpsSim.NEOM8N.constructor | simulators/gps_sim/lib/gps_sim.py:34-63 | the defaults, no generator, no last sample, and the scenario loaded from its file |
| GpsSim.NEOM8N.Set | simulators/gps_sim/lib/gps_sim.py:68-268 | a property setter stores an accepted value; when it raises, the settings are what the setter stored before raising (`Refused`: unchanged, except for the latitude `initial_position` stores before a refused longitude) |
| GpsSim.NEOM8N.ReadLine | simulators/gps_sim/lib/gps_sim.py:283-301 | one line of `read_config`: a parse or setter error leaves the settings unchanged, otherwise the option is assigned |
| GpsSim.NEOM8N.ReadConfig | simulators/gps_sim/lib/gps_sim.py:270-301 | no path or no `[gps]` section keeps the settings; otherwise the lines run in order and the first error ends it, earlier assignments kept |
| GpsSim.NEOM8N.InitSim | simulators/gps_sim/lib/gps_sim.py:304-306 | after `init_sim` the simulator is initialised with no last sample time and its settings unchanged |
| GpsSim.NEOM8N.Sample | simulators/gps_sim/lib/gps_sim.py:309-373 | a guard failure raises and changes nothing; otherwise the reading at `t` is returned and `t` becomes the last sample time |
| GpsSim.NEOM8N.Simulate | simulators/gps_sim/lib/gps_sim.py:383-394 | a negative sample count raises ValueError; otherwise `n` samples at times `i / rate`, in order, the first error ending the run |
| GpsSim.NEOM8N.SampleRun | simulators/gps_sim/lib/gps_sim.py:389-393 | the loop returns the sample times and the readings of every sample, or the guard error of the first |
| GpsSim.NEOM8N.SampleNext | simulators/gps_sim/lib/gps_sim.py:389-393 | one turn samples at the `i`-th time and appends that time and its reading |
| GpsSim.NEOM8N.Sentences | simulators/gps_sim/lib/gps_sim.py:352-371 | the sentence loop yields the framed sentences of the known configured types, in order |
| GpsSim.SentenceStep | simulators/gps_sim/lib/gps_sim.py:353-371 | one more name adds its sentence when its type is known and nothing otherwise |
| GpsSim.SelectedAppend | simulators/gps_sim/lib/gps_sim.py:353-370 | selecting from a list with one more name appends that name's type, if any |
| GpsSim.FramesAppend | simulators/gps_sim/lib/gps_sim.py:352-371 | the sentences of joined type lists are the joined sentences |
| GpsSim.SelectedCount | simulators/gps_sim/lib/gps_sim.py:353-370 | exactly one sentence per configured name of a known type, never more than the names |
| GpsSim.SelectedSplit | simulators/gps_sim/lib/gps_sim.py:353-370 | the selection keeps configured order |
| GpsSim.SelectionExamples | simulators/gps_sim/lib/gps_sim.py:353-370 | mixed-case names select their types in order; unknown names are skipped |
| GpsSim.KindExamples | simulators/gps_sim/lib/gps_sim.py:354 | names are compared without regard to case |
| GpsSim.TimesShape | simulators/gps_sim/lib/gps_sim.py:384-385 | `simulate` asks for `n` times, the `j`-th being `j / rate` |
| GpsSim.TimesIncrease | simulators/gps_sim/tests/test_gps.py:127-131 | the sample times start at 0 and strictly increase |
| GpsSim.LaterSample | simulators/gps_sim/lib/gps_sim.py:312-313 | sample times never decrease, so no sample after the first meets the time guard |
| GpsSim.MeasureNoise | simulators/gps_sim/lib/gps_sim.py:334-350 | course and climb are copied from the truth; with zero noise levels the measurement is the truth |
| GpsSim.ProviderWithoutNoise | simulators/gps_sim/tests/test_gps.py:93-104 | with a motion provider and no noise, measurement and truth are what the provider reports |
| GpsSim.FrameStart | simulators/gps_sim/lib/gps_sim.py:356-380 | every framed sentence starts with '$', its tag and a comma |
| GpsSim.OnlyGga | simulators/gps_sim/tests/test_gps.py:151-160 | configured with GGA only, a sample holds one GGA sentence and no RMC or VTG |
| GpsSim.BodyPlain | simulators/gps_sim/lib/gps_sim.py:356-368 | with plain number formatting every body is ASCII and holds no '*' |
| GpsSim.FramesChecksums | simulators/gps_sim/lib/gps_sim.py:371-380 | every framed sentence carries a checksum the receiver can recompute |
| GpsSim.ReadingChecksums | simulators/gps_sim/tests/test_gps.py:134-149 | for every sentence of a reading, the two digits after '*' are the checksum of the text between '$' and '*' |
| GpsSettings.OctalCount | simulators/gps_sim/lib/gps_sim.py:247 | an octal escape takes at most three octal digits |
| GpsSettings.OctalValue | simulators/gps_sim/lib/gps_sim.py:247 | one, two and three octal digits stay below 8, 64 and 512 |
| GpsSettings.PlainTerm | simulators/gps_sim/lib/gps_sim.py:247 | `unicode_escape` leaves ASCII text without a backslash unchanged |
| GpsSettings.TermExamples | simulators/gps_sim/tests/test_configparser.py:165-171 | the escaped and the already decoded CR LF both become CR LF |
| GpsSettings.CleanNames | simulators/gps_sim/lib/gps_sim.py:233 | the cleaned list is no longer than the input and holds no blank name |
| GpsSettings.AssignLat | simulators/gps_sim/lib/gps_sim.py:142-148 | accepted exactly for a number in [-90, 90]; a non-number is TypeError, an out-of-range number ValueError |
| GpsSettings.AssignLon | simulators/gps_sim/lib/gps_sim.py:154-160 | accepted exactly for a number in [-180, 180]; a non-number is TypeError, an out-of-range number ValueError |
| GpsSettings.DefaultsValid | simulators/gps_sim/lib/gps_sim.py:46-63 | the defaults satisfy every setter's range |
| GpsSettings.AssignValid | simulators/gps_sim/lib/gps_sim.py:72-267 | no setter can store a value outside its range |
| GpsSettings.AssignFrame | simulators/gps_sim/lib/gps_sim.py:72-267 | each setter changes only its own property; `initial_position` only the three coordinates |
| GpsSettings.AssignStoredValue | simulators/gps_sim/lib/gps_sim.py:72-183 | assigning the value a property already holds is accepted and changes nothing |
| GpsSettings.RejectedTypes | simulators/gps_sim/tests/test_configparser.py:174-214 | the setters raise TypeError for the wrong types and signs the tests try |
| GpsSettings.RejectedRanges | simulators/gps_sim/tests/test_configparser.py:157-199 | the setters raise ValueError for the out-of-range values the tests try |
| GpsSettings.RefusedFrame | simulators/gps_sim/lib/gps_sim.py:68-183 | a refused assignment changes nothing but, through `initial_position` with an accepted latitude, the latitude, and it keeps every setter's guarantee |
| GpsSettings.PositionPartialUpdate | simulators/gps_sim/lib/gps_sim.py:183 | `initial_position` with an accepted latitude and a longitude out of range raises ValueError and leaves the settings with that latitude stored and everything else unchanged |
| GpsSettings.CleanNamesSpec | simulators/gps_sim/lib/gps_sim.py:233 | each name is stripped and upper-cased, in order |
| GpsSettings.GetInt | simulators/gps_sim/lib/gps_sim.py:283 | `getint` gives the fallback when the option is absent and fails exactly when the text is no integer |
| GpsSettings.GetFloat | simulators/gps_sim/lib/gps_sim.py:286 | `getfloat` gives the fallback when the option is absent and fails exactly when the text is no number |
| GpsSettings.GetBool | simulators/gps_sim/lib/gps_sim.py:285 | `getboolean` gives the fallback when the option is absent |
| GpsSettings.ConfigStep | simulators/gps_sim/lib/gps_sim.py:283-301 | a line of `read_config` that succeeds keeps every setter's range |
| GpsSettings.Configured | simulators/gps_sim/lib/gps_sim.py:283-301 | the settings left by `read_config`, error or not, keep every setter's range |
| GpsSettings.EmptySectionStep | simulators/gps_sim/lib/gps_sim.py:283-301 | each line on a section without options puts the default back |
| GpsSettings.DefaultNames | simulators/gps_sim/lib/gps_sim.py:297-298 | the default sentence list survives the join, split and clean |
| GpsSettings.NamesRead | simulators/gps_sim/lib/gps_sim.py:297-298 | without the option, the current list is read back through a join and a split |
| GpsSettings.EmptySection | simulators/gps_sim/lib/gps_sim.py:280-301 | a `[gps]` section without options leaves the defaults and raises nothing |
| GpsBridge.Move | simulators/gps_sim/lib/mqtt_bridge.py:199-209 | `_move` keeps the destination latitude and brings the longitude into [-180, 180), unchanged when already there and one turn down from [180, 540) |
| GpsBridge.FloatOf | simulators/gps_sim/lib/mqtt_bridge.py:231-239 | `float(v)`: a number gives its value, None and containers TypeError, a string that is no number ValueError |
| GpsBridge.TickAt | simulators/gps_sim/lib/mqtt_bridge.py:292 | the tick due at `now` is the number of whole periods since the anchor, and 0 for less than one period before it |
| GpsBridge.SleepFor | simulators/gps_sim/lib/mqtt_bridge.py:334-337 | the sleep before the next anchored tick is between 0 and one period |
| GpsBridge.Rebased | simulators/gps_sim/lib/mqtt_bridge.py:288-290 | a run without an anchor gets one |
| GpsBridge.MeasOut | simulators/gps_sim/lib/mqtt_bridge.py:299-311 | the published payload always has the keys of `meas_out` |
| GpsBridge.PublishRate | simulators/gps_sim/lib/mqtt_bridge.py:270-277 | `pub_hz` is positive: the publish rate when positive, the update rate when the publish rate is 0, 1 Hz otherwise |
| GpsBridge.StartGuard | simulators/gps_sim/lib/mqtt_bridge.py:253-254 | `start` refuses with RuntimeError exactly when the receiver has not been initialised |
| GpsBridge.GpsPublisher.constructor | simulators/gps_sim/lib/mqtt_bridge.py:27-61 | an inactive run at the origin with no anchor and tick -1 |
| GpsBridge.GpsPublisher.OnMessage | simulators/gps_sim/lib/mqtt_bridge.py:211-245 | `_on_message`: the new state and outcome are those of the reaction to the message; an engaging command resets the receiver's time base |
| GpsBridge.GpsPublisher.Configure | simulators/gps_sim/lib/mqtt_bridge.py:231-245 | the stores of VECTOR and ROUTE in order, with the anchoring at `now` |
| GpsBridge.GpsPublisher.Iterate | simulators/gps_sim/lib/mqtt_bridge.py:283-337 | one turn: nothing while inactive; a wait of the anchored sleep while no tick is due; otherwise a catch-up to the due tick and one sample that is published, dropped or raises, the tick recorded unless it raised; a dropped sample also records its tick, which the source's `continue` would skip, so the next turn would not redo the same ticks |
| GpsBridge.GpsPublisher.Draw | simulators/gps_sim/lib/mqtt_bridge.py:298-319 | the sample at the simulated time with the publisher's motion, then `meas_out` and the validator; the receiver's last sample time moves only when the sample passes its guards |
| GpsBridge.GpsPublisher.Start | simulators/gps_sim/lib/mqtt_bridge.py:248-341 | `start`: refuses before initialisation and publishes nothing then; otherwise at most one payload per turn of the loop, each with the shape of `meas_out` |
| GpsBridge.GpsPublisher.Handle | simulators/gps_sim/lib/mqtt_bridge.py:211-337 | from an anchored schedule no event raises; a control message publishes nothing |
| GpsBridge.GpsPublisher.Receive | simulators/gps_sim/lib/mqtt_bridge.py:211-245 | a control message keeps the schedule anchored |
| GpsBridge.GpsPublisher.Tick | simulators/gps_sim/lib/mqtt_bridge.py:283-337 | a turn of the loop keeps the schedule anchored, never raises, and publishes only shaped payloads |
| GpsBridge.ReactAnchored | simulators/gps_sim/lib/mqtt_bridge.py:219-245 | a control message keeps the schedule anchored: an engaged run restarts at tick -1 with no sample yet |
| GpsBridge.AnchoredKept | simulators/gps_sim/lib/mqtt_bridge.py:219-221 | a run that keeps its schedule and can only end stays anchored |
| GpsBridge.AnchoredFresh | simulators/gps_sim/lib/mqtt_bridge.py:242-245 | a run restarted at tick -1 with no sample yet is anchored |
| GpsBridge.ReactClock | simulators/gps_sim/lib/mqtt_bridge.py:211-245 | a control message either keeps the schedule or restarts it at tick -1 from `now` |
| GpsBridge.EngageKeepsClock | simulators/gps_sim/lib/mqtt_bridge.py:231-245 | a failed engagement leaves activity and schedule as they were; a successful one anchors afresh |
| GpsBridge.AdvanceAnchored | simulators/gps_sim/lib/mqtt_bridge.py:292-298 | catching up records a later tick, puts the simulated time one period past it, and the sample at that time passes the receiver's guards |
| GpsBridge.HeadingIsCommanded | simulators/gps_sim/lib/mqtt_bridge.py:298-310 | the published `cog` and `heading` are the commanded heading, whatever the noise |
| GpsBridge.WaitSleeps | simulators/gps_sim/lib/mqtt_bridge.py:333-337 | while no tick is due the loop sleeps a positive time of at most one period |
| GpsBridge.Ignored | simulators/gps_sim/lib/mqtt_bridge.py:212-217 | other topics, payloads that do not decode and unknown verbs change nothing |
| GpsBridge.StopEnds | simulators/gps_sim/lib/mqtt_bridge.py:218-221 | STOP in any case only ends the run |
| GpsBridge.NotAnObject | simulators/gps_sim/lib/mqtt_bridge.py:218 | a payload that is not an object raises AttributeError and changes nothing |
| GpsBridge.Engaged | simulators/gps_sim/lib/mqtt_bridge.py:231-245 | a command whose fields all convert stores them, takes the bearing to the next point for a ROUTE that names one and `hdg` otherwise, and anchors the run at `now` |
| GpsBridge.ConvertDefaults | simulators/gps_sim/lib/mqtt_bridge.py:231-239 | a command without the numeric fields converts to the defaults |
| GpsBridge.EngagedDefaults | simulators/gps_sim/lib/mqtt_bridge.py:231-245 | the defaults engage a run at the origin, speed 0, heading 0, even for ROUTE |
| GpsBridge.PartialUpdate | simulators/gps_sim/lib/mqtt_bridge.py:231-233 | a speed that does not convert raises with the new position already stored |
| GpsBridge.ConfiguredRate | simulators/gps_sim/lib/mqtt_bridge.py:270-277 | with a valid receiver the publish rate is the configured one |
| GpsBridge.InitialAnchored | simulators/gps_sim/lib/mqtt_bridge.py:50-61 | the constructor's state is anchored |
| GpsBridge.GuardNeverFires | simulators/gps_sim/lib/mqtt_bridge.py:253-254 | as written, the guard of `start` never fires, while the intended guard does before `init_sim` |
| GpsBridge.RejectRaises | simulators/gps_sim/lib/mqtt_bridge.py:315-319 | as written, a payload the validator rejects raises AttributeError |
| Geodesy.Bearing | simulators/gps_sim/lib/mqtt_bridge.py:189-197 | `(brng + 360) % 360` puts the raw course in [0, 360), unchanged when already there |
| Esp32.BlankStripped | simulators/esp32_sim/lib/esp32_sim.py:101 | a topic is blank exactly when `strip()` empties it |
| Esp32.CheckTopic | simulators/esp32_sim/lib/esp32_sim.py:100-103 | `_check_topic` returns the string it was given |
| Esp32.FirstRefused | simulators/esp32_sim/lib/esp32_sim.py:222-249 | the first refusing setter call lies between the start position and the end |
| Esp32.ESP32.constructor | simulators/esp32_sim/lib/esp32_sim.py:25-57 | the defaults, no schemas, no client, not running, sequence 0 and nothing received |
| Esp32.ESP32.Set | simulators/esp32_sim/lib/esp32_sim.py:64-219 | a setter stores an accepted value; a refused one raises TypeError and changes nothing |
| Esp32.ESP32.ReadConfig | simulators/esp32_sim/lib/esp32_sim.py:222-260 | the setters in order, stopping at the first that raises; then the client with its "offline" last will; then the schemas when validation is on |
| Esp32.ESP32.ReadGroup | simulators/esp32_sim/lib/esp32_sim.py:225-249 | the setter calls of a stretch of `read_config` compose with the rest of it |
| Esp32.ESP32.LoadSchemas | simulators/esp32_sim/lib/esp32_sim.py:263-295 | `_load_schemas_exact` leaves the schema table and error of its specification on the parsed file |
| Esp32.ESP32.OnMessage | simulators/esp32_sim/lib/esp32_sim.py:320-406 | `_on_message` leaves the counters and delivery `ReceivedCounters` and `ForwardedPayload` describe |
| Esp32.ESP32.OnConnect | simulators/esp32_sim/lib/esp32_sim.py:302-313 | on success the three subscriptions and the retained "online" status; on failure neither |
| Esp32.ESP32.Start | simulators/esp32_sim/lib/esp32_sim.py:409-424 | RuntimeError without a client, changing nothing; otherwise the run ends in `stop` |
| Esp32.ESP32.Stop | simulators/esp32_sim/lib/esp32_sim.py:427-443 | the bridge no longer runs; the "offline" status is published when there is a client and it is retained |
| Esp32.AssignMeans | simulators/esp32_sim/lib/esp32_sim.py:64-219 | a setter accepts exactly the values of its kind, raises TypeError otherwise, and the property then reads back as the value |
| Esp32.AssignFrame | simulators/esp32_sim/lib/esp32_sim.py:64-219 | a setter changes only its own property |
| Esp32.ConfiguredFails | simulators/esp32_sim/lib/esp32_sim.py:222-249 | the setter calls stop with TypeError exactly when one of them is refused |
| Esp32.NoneRefused | simulators/esp32_sim/lib/esp32_sim.py:222-249 | no setter call refuses exactly when the file's values are all acceptable |
| Esp32.Refused | simulators/esp32_sim/lib/esp32_sim.py:222-249 | a refused call ends the sequence with the configuration as it was |
| Esp32.Accepted | simulators/esp32_sim/lib/esp32_sim.py:222-249 | an accepted call hands its new configuration to the next |
| Esp32.ConfiguredAll | simulators/esp32_sim/lib/esp32_sim.py:222-249 | with every value acceptable, the configuration becomes the file's, whatever it was |
| Esp32.ReadConfigOutcome | simulators/esp32_sim/lib/esp32_sim.py:222-249 | `read_config` raises nothing exactly for acceptable values and then configures exactly the file's values; otherwise TypeError |
| Esp32.PartialUpdate | simulators/esp32_sim/lib/esp32_sim.py:225-232 | a blank input topic raises with the broker and client settings already stored and the rest as before |
| Esp32.ReceivedCounters | simulators/esp32_sim/lib/esp32_sim.py:320-392 | a discarded message changes no counter; any other takes the next sequence number, even unrouted; only the routed input's receive time is stamped; forwarded exactly when routed |
| Esp32.ForwardedPayload | simulators/esp32_sim/lib/esp32_sim.py:362-399 | the forwarded message goes to the input's output topic at its QoS, unretained, numbered, stamped, with a "Z" timestamp kept, the sender's `seq` as `sim_seq` and every other field unchanged |
| RouteSim.WaveConfigOf | simulators/route.py:66-78 | `_wave_config` gives the configuration of the lower-cased state, and the calm one for an unknown name |
| RouteSim.WaveCaseInsensitive | simulators/route.py:69 | a state name and its lower-case form select the same configuration |
| RouteSim.SegmentSpeed | simulators/route.py:46 | a segment's speed is the waypoint's speed floored at 1e-6 |
| RouteSim.ToWayPoint | simulators/route.py:37 | a scenario point becomes a waypoint with its coordinates and a missing speed read as 0 |
| RouteSim.Open | simulators/route.py:27-64 | ValueError exactly for an empty point list; otherwise the lower-cased wave state, its configuration, and the segments built from the points |
| RouteSim.LegNonNegative | simulators/route.py:45-55 | every segment lasts a non-negative time, entered at the time it was built from |
| RouteSim.Timeline | simulators/route.py:40-59 | the first segment starts at 0, each starts when the previous ends, none lasts a negative time, the total is the last end (0 for a single point) |
| RouteSim.FirstContaining | simulators/route.py:109-111 | the first segment whose span holds `t`, none before it holding `t` |
| RouteSim.SegmentAt | simulators/route.py:103-112 | `_segment_at`: ValueError without segments; the last segment from the total time on; otherwise the first holding `t`, or the last when none does |
| RouteSim.SegmentLookup | simulators/route.py:103-112 | between 0 and the total time the segment found holds `t` |
| RouteSim.Position | simulators/route.py:114-127 | `position` raises ValueError exactly when there are no segments |
| RouteSim.PositionAtExit | simulators/route.py:119-120 | at or past the segment's end the boat rests at its end point with speed 0 and the segment's bearing |
| RouteSim.PositionInside | simulators/route.py:121-127 | inside the segment the position is the interpolation at a fraction in [0, 1), at the segment's speed and bearing |
| RouteSim.PositionAtEntry | simulators/route.py:121-123 | at a segment's start the position is its first point |
| RouteSim.GpsMotion | simulators/route.py:129-138 | `gps_motion` is the position with altitude 0, the speed in knots and climb 0 |
| Scenarios.Leg | simulators/scenarios/route.py:30-35 | a leg starts at its entry time with the start point's speed, has no duration at a speed not positive, and a bearing in [0, 360) |
| Scenarios.Load | simulators/scenarios/route.py:17-23 | the file's points, or the origin alone when the file is missing or has none; the wave state or "calm"; the segments built from the points |
| Scenarios.BuildSegments | simulators/scenarios/route.py:26-37 | one leg per consecutive pair, each entered when the previous ends, the total the last end |
| Scenarios.FirstEnding | simulators/scenarios/route.py:64-65 | the first leg ending at or after `t`, every earlier one ending before it |
| Scenarios.LegNonNegative | simulators/scenarios/route.py:33 | no leg lasts a negative time |
| Scenarios.EntriesOrdered | simulators/scenarios/route.py:28-37 | entry times never decrease |
| Scenarios.DefaultScenario | simulators/scenarios/route.py:19-22 | with the origin alone there are no legs, the total is 0 and `state_at` is always (0, 0, 0, 0) |
| Scenarios.AtLegEnd | simulators/scenarios/route.py:64-69 | at the end of the leg found, a leg of positive duration yields its end point, speed and bearing |
| Scenarios.FractionRange | simulators/scenarios/route.py:66 | within the leg found the fraction covered is in [0, 1] |
| Scenarios.PastTheEnd | simulators/scenarios/route.py:70-72 | past the last end the boat rests at the last point with speed 0 and the last bearing |
| ScenarioUtils.InterpEndpoints | simulators/scenarios/utils.py:50-54 | `interp` at 0 is the first point and at 1 the second |
| ScenarioUtils.InterpBetween | simulators/scenarios/utils.py:50-54 | for a fraction in [0, 1] the latitude lies between the endpoints' |
| ScenarioUtils.StepCount | simulators/scenarios/utils.py:69 | a kept leg yields at least one state |
| ScenarioUtils.LegStates | simulators/scenarios/utils.py:70-78 | the steps from `step` up to `n` of a leg, one state each |
| ScenarioUtils.LegOf | simulators/scenarios/utils.py:63-78 | a kept leg yields `max(1, int(dur / dt))` states |
| ScenarioUtils.GenerateStates | simulators/scenarios/utils.py:57-80 | the states yielded and the exception raised are those of the generator's specification |
| ScenarioUtils.EmitLeg | simulators/scenarios/utils.py:70-78 | the inner loop yields the leg's states and advances the time once per state |
| ScenarioUtils.LegTimes | simulators/scenarios/utils.py:70-78 | the states of a leg are `dt` apart from its entry time |
| ScenarioUtils.SpacedAppend | simulators/scenarios/utils.py:59-80 | spaced runs joined with one `dt` between them stay spaced |
| ScenarioUtils.Times | simulators/scenarios/utils.py:57-80 | the yielded times start at the time given (0 for the whole run) and each is `dt` after the previous |
| ScenarioUtils.Closing | simulators/scenarios/utils.py:79-80 | without an exception the kept legs yield their step counts and one final state at the last point with heading, roll and pitch 0 |
| ScenarioUtils.Raises | simulators/scenarios/utils.py:57-80 | the generator raises exactly when a kept leg lasts no time or `dt` is 0, never an IndexError on a non-empty list |
| ScenarioUtils.NoPoints | simulators/scenarios/utils.py:79 | an empty point list yields nothing before `points[-1]` fails |
| ScenarioUtils.FracRange | simulators/scenarios/utils.py:71 | the fraction covered at a step is in [0, 1] |
| RunScenario.ForwardTopic | simulators/scripts/run_scenario.py:86-90 | `sim/imu` goes to `sensor/imu`, `sim/gps` to `sensor/gps`, every other topic nowhere |
| RunScenario.Forward | simulators/scripts/run_scenario.py:86-90 | a forwarded message keeps its payload bytes |
| RunScenario.WaveOf | simulators/scripts/run_scenario.py:139 | an exact, case-sensitive lookup of the sea state falling back to calm; a list or object raises TypeError |
| RunScenario.GenerateStates | simulators/scripts/run_scenario.py:110-134 | the script's copy of `generate_states` yields the same states and raises the same exception as the utilities' |
| RunScenario.Publish | simulators/scripts/run_scenario.py:146-171 | an IMU then a GPS message per state, each with exactly the script's fields: the IMU message with gravity on z, the wave's roll and pitch rates at the state's time, its clock reading and a sequence number counting the states from 0; the GPS message with the state's position and its clock reading |
| RunScenario.Run | simulators/scripts/run_scenario.py:137-174 | a bad sea state raises TypeError before publishing; otherwise the generated states are published, then any exception of the generator |
| ImuEnums.AccelRangeCode | simulators/imu_sim/lib/enums.py:8-12 | looking up an accelerometer range's code gives the range back |
| ImuEnums.AccelRangeOf | simulators/imu_sim/lib/enums.py:8-12 | `AccelerometerRange(code)` succeeds exactly for the codes 1, 2, 4 and 8 |
| ImuEnums.GyroRangeCode | simulators/imu_sim/lib/enums.py:15-19 | looking up a gyroscope range's code gives the range back |
| ImuEnums.GyroRangeOf | simulators/imu_sim/lib/enums.py:15-19 | `GyroscopeRange(code)` succeeds exactly for the codes 1, 2, 4 and 8 |
| ImuEnums.MagRangeCode | simulators/imu_sim/lib/enums.py:22-24 | looking up a magnetometer width's code gives the width back |
| ImuEnums.MagRangeOf | simulators/imu_sim/lib/enums.py:22-24 | `MagnetometerRange(code)` succeeds exactly for the codes 1 and 2 |
| ImuEnums.MagModeCode | simulators/imu_sim/lib/enums.py:27-31 | looking up a magnetometer mode's code gives the mode back |
| ImuEnums.MagModeOf | simulators/imu_sim/lib/enums.py:27-31 | `MagnetometerMode(code)` succeeds exactly for the codes 1 to 4 |
| ImuEnums.DlpfCode | simulators/imu_sim/lib/enums.py:34-36 | looking up a filter setting's code gives the setting back |
| ImuEnums.DlpfOf | simulators/imu_sim/lib/enums.py:34-36 | `DLPF(code)` succeeds exactly for the codes 0 and 1 |
| ImuEnums.CodesInvert | simulators/imu_sim/lib/enums.py:8-36 | for every enumeration, a code the lookup accepts is the code of the member it finds (code and lookup are inverse) |
| Vectors.ClipV | simulators/imu_sim/lib/accelerometer_sim.py:100-102 | `np.clip` lands in [lo, hi] and leaves a vector already in range unchanged |
| Vectors.Quantize | simulators/imu_sim/lib/accelerometer_sim.py:104-107 | a count is always in the int16 range [-32768, 32767] |
| Vectors.QuantizeV | simulators/imu_sim/lib/accelerometer_sim.py:104-107 | all three counts of a vector are in the int16 range |
| Vectors.RoundMonotone | simulators/imu_sim/lib/accelerometer_sim.py:106 | `np.rint` (round half to even) never reverses the order of two values |
| Vectors.QuantizeMonotone | simulators/imu_sim/lib/accelerometer_sim.py:104-107 | a larger reading never gives a smaller count |
| Vectors.QuantizeError | simulators/imu_sim/lib/accelerometer_sim.py:104-107 | a reading whose scaled value is in the int16 range is quantised to within half a count |
| Vectors.QuantizeExact | simulators/imu_sim/lib/accelerometer_sim.py:104-107 | at any positive scale, a reading of exactly `n` counts in the int16 range gives back `n` |
| Vectors.LowPassBetween | simulators/imu_sim/lib/accelerometer_sim.py:90-91 | with a coefficient in [0, 1] the low-pass output lies between the previous state and the input |
| Vectors.Blend | simulators/imu_sim/lib/imu_sim.py:415 | `prev += alpha * (x - prev)` is the convex combination `(1 - alpha) prev + alpha x` |
| Vectors.BlendBetween | simulators/imu_sim/lib/imu_sim.py:415 | with alpha in [0, 1] the blended value lies between the previous value and the input |
| AccelSimulator.Alpha | simulators/imu_sim/lib/accelerometer_sim.py:26-30 | a coefficient exactly when the filter is enabled and the rate is non-zero; ZeroDivisionError exactly when enabled at rate 0 |
| AccelSimulator.Bandwidth | simulators/imu_sim/lib/accelerometer_sim.py:44-48 | the noise bandwidth is `(pi/2) fc` behind the filter, `odr/2` without it, never below 1e-9 |
| AccelSimulator.AccelSim.constructor | simulators/imu_sim/lib/accelerometer_sim.py:20-36 | the coefficient, a zero state, primed exactly when unfiltered, and the noise deviation of the bandwidth |
| AccelSimulator.AccelSim.Step | simulators/imu_sim/lib/accelerometer_sim.py:56-108 | the new filter state and the output are those of the two filter blocks applied to the rotated, gravity-added, biased input; a negative sigma raises ValueError when the noise is drawn, and the state changes even then and when the range lookup fails |
| AccelSimulator.FirstFilteredStep | simulators/imu_sim/lib/accelerometer_sim.py:84-88 | with a filter, the first step returns its input and primes the state with it |
| AccelSimulator.DoubleRecurrence | simulators/imu_sim/lib/accelerometer_sim.py:77-92 | once primed, each step applies the recurrence twice, i.e. a filter with coefficient alpha squared |
| AccelSimulator.Unfiltered | simulators/imu_sim/lib/accelerometer_sim.py:93-94 | without a filter the output is the biased input and the state is untouched |
| AccelSimulator.OutputInRange | simulators/imu_sim/lib/accelerometer_sim.py:100-108 | for a known range the reading lies in [-range, range], equals filtered value plus noise when that is in range, and its counts are in int16 |
| AccelSimulator.FullScale | simulators/imu_sim/lib/accelerometer_sim.py:104-107 | in every range, +range reads 32767 (32768 saturated) and -range reads -32768 |
| GyroSimulator.Alpha | simulators/imu_sim/lib/gyroscope_sim.py:26-30 | a coefficient exactly when the filter is enabled and the rate is non-zero; ZeroDivisionError exactly when enabled at rate 0 |
| GyroSimulator.Bandwidth | simulators/imu_sim/lib/gyroscope_sim.py:44-48 | the noise bandwidth is `(pi/2) fc` behind the filter, `odr/2` without it, never below 1e-9 |
| GyroSimulator.GyroSim.constructor | simulators/imu_sim/lib/gyroscope_sim.py:20-36 | the coefficient, a zero state, primed exactly when unfiltered, and the noise deviation of the bandwidth |
| GyroSimulator.GyroSim.Step | simulators/imu_sim/lib/gyroscope_sim.py:56-99 | the new filter state and the output are those of the primed filter on the rotated, biased rate; a negative sigma raises ValueError after the state update |
| GyroSimulator.OutputInRange | simulators/imu_sim/lib/gyroscope_sim.py:90-99 | for a known range the rate lies in [-range, range], equals filtered value plus noise when that is in range, and its counts are in int16 |
| GyroSimulator.FullScale | simulators/imu_sim/lib/gyroscope_sim.py:94-97 | 250 and 500 dps reach +-32750 counts without saturating; 1000 and 2000 dps saturate at 32767 and -32768 |
| MagSimulator.Period | simulators/imu_sim/lib/magnetometer_sim.py:32 | the period is always positive (no division by zero) and is `1/odr` for a rate of at least 1e-9 |
| MagSimulator.Alpha | simulators/imu_sim/lib/magnetometer_sim.py:31-35 | a coefficient exactly when the filter is enabled |
| MagSimulator.Bandwidth | simulators/imu_sim/lib/magnetometer_sim.py:49-53 | the noise bandwidth is `(pi/2) fc` behind the filter, `odr/2` without it, never below 1e-9 |
| MagSimulator.MagSim.constructor | simulators/imu_sim/lib/magnetometer_sim.py:25-41 | the coefficient, a zero state, primed exactly when unfiltered, and the noise deviation of the bandwidth |
| MagSimulator.MagSim.Step | simulators/imu_sim/lib/magnetometer_sim.py:61-98 | the new filter state and the output are those of the primed filter on the rotated world field plus bias; a negative sigma raises ValueError after the state update |
| MagSimulator.OutputUnclipped | simulators/imu_sim/lib/magnetometer_sim.py:89-98 | the microtesla reading is filtered value plus noise, never clipped, while the counts stay in int16 |
| MagSimulator.StaticReading | simulators/imu_sim/lib/magnetometer_sim.py:72-98 | unfiltered, with identity rotation and no noise, the reading is the world field plus the bias |
| ImuSim.AccelOdr | simulators/imu_sim/lib/imu_sim.py:160-162 | the accelerometer rate times (divider + 1) is 1 kHz behind the filter and 4 kHz in bypass |
| ImuSim.GyroOdr | simulators/imu_sim/lib/imu_sim.py:233-235 | the gyroscope rate times (divider + 1) is 1 kHz behind the filter and 32 kHz in bypass |
| ImuSim.MagOdr | simulators/imu_sim/lib/imu_sim.py:274-279 | the magnetometer rate is zero exactly in power-down and single mode |
| ImuSim.MagCps | simulators/imu_sim/lib/imu_sim.py:257 | counts per uT times 0.6 (14 bits) or 0.15 (16 bits) is 1 |
| ImuSim.LpfAlpha | simulators/imu_sim/lib/imu_sim.py:47-52 | no filter exactly for a cutoff at or below zero; ZeroDivisionError exactly for a positive cutoff at rate 0 |
| ImuSim.RangeG | simulators/imu_sim/lib/imu_sim.py:389-395 | every accelerometer range has a positive full scale |
| ImuSim.RangeDps | simulators/imu_sim/lib/imu_sim.py:397-403 | every gyroscope range has a positive full scale |
| ImuSim.Step | simulators/imu_sim/lib/imu_sim.py:405-424 | after a sample the sensor still passes its guard and keeps its coefficient |
| ImuSim.TimeAxis | simulators/imu_sim/lib/imu_sim.py:492-494 | ZeroDivisionError for rate 0, ValueError for a negative count, otherwise n times `i / odr` |
| ImuSim.Run | simulators/imu_sim/lib/imu_sim.py:500-503 | n samples give n readings and keep the sensor's guard and coefficient; zero samples change nothing |
| ImuSim.Phase | simulators/imu_sim/lib/imu_sim.py:500-511 | a successful sampling loop returns exactly n readings |
| ImuSim.Simulated | simulators/imu_sim/lib/imu_sim.py:484-517 | a result holds, per sensor, `floor(odr * duration) + 1` times `i / odr` and as many readings |
| ImuSim.MPU9250.constructor | simulators/imu_sim/lib/imu_sim.py:59-88 | the default settings and no sensor initialised |
| ImuSim.MPU9250.Set | simulators/imu_sim/lib/imu_sim.py:98-315 | an accepted value gives the setter's new settings; a refused value raises and leaves every setting unchanged |
| ImuSim.MPU9250.InitSim | simulators/imu_sim/lib/imu_sim.py:354-370 | the channels and outcome are those of `init_x_sim` on the current settings |
| ImuSim.MPU9250.InitAllSims | simulators/imu_sim/lib/imu_sim.py:372-384 | the channels and outcome are those of `init_all_sims` |
| ImuSim.MPU9250.Sample | simulators/imu_sim/lib/imu_sim.py:405-457 | a guarded sample raises and changes nothing; otherwise only that sensor's channel advances by one step and the step's output is returned |
| ImuSim.MPU9250.RunSensor | simulators/imu_sim/lib/imu_sim.py:500-511 | the loop leaves the channels and result of one sampling phase |
| ImuSim.MPU9250.Simulate | simulators/imu_sim/lib/imu_sim.py:484-517 | the channels and result are those of `simulate` |
| ImuSim.AccelRangeSetter | simulators/imu_sim/lib/imu_sim.py:98-108 | the range becomes e exactly for e or its code; an unknown int code is ValueError, any other type TypeError |
| ImuSim.GyroRangeSetter | simulators/imu_sim/lib/imu_sim.py:173-183 | the range becomes e exactly for e or its code; an unknown int code is ValueError, any other type TypeError |
| ImuSim.DlpfSetters | simulators/imu_sim/lib/imu_sim.py:114-124 | both filter setters accept exactly a member or its code (0 or 1) and leave the output rate as it was |
| ImuSim.MagRangeSetter | simulators/imu_sim/lib/imu_sim.py:246-257 | an accepted width also sets the counts per uT; codes other than 1 and 2 are ValueError |
| ImuSim.MagModeSetter | simulators/imu_sim/lib/imu_sim.py:263-279 | an accepted mode also sets the rate from the table; codes other than 1 to 4 are ValueError |
| ImuSim.VectorSetters | simulators/imu_sim/lib/imu_sim.py:130-136 | the bias and world-field setters accept exactly a list or tuple of three numbers and change only their own vector; anything else is TypeError |
| ImuSim.NoiseDensitySetters | simulators/imu_sim/lib/imu_sim.py:297-303 | every noise density setter accepts exactly a number, except the magnetometer's, which also refuses a negative one; refusals are TypeError |
| ImuSim.AccelDividerSetter | simulators/imu_sim/lib/imu_sim.py:152-162 | ValueError before a filter setting or for a bypass divider not a multiple of 4, TypeError for a non-int or negative value, otherwise the divider and its rate |
| ImuSim.GyroDividerSetter | simulators/imu_sim/lib/imu_sim.py:227-235 | ValueError before a filter setting, TypeError for a non-int or negative value, otherwise the divider and its rate |
| ImuSim.DefaultsValid | simulators/imu_sim/lib/imu_sim.py:67-88 | the defaults satisfy the settings invariant (magnetometer rate and sensitivity follow its mode and width) |
| ImuSim.AssignKeepsValid | simulators/imu_sim/lib/imu_sim.py:98-315 | every accepted assignment keeps the settings invariant |
| ImuSim.AlphaInUnit | simulators/imu_sim/lib/imu_sim.py:47-52 | a positive cutoff at a positive rate gives a coefficient strictly inside (0, 1), equal to `2 pi fc / (2 pi fc + fs)` |
| ImuSim.InitMagSucceeds | simulators/imu_sim/lib/imu_sim.py:366-370 | the magnetometer's initialisation never fails, even at rate 0 |
| ImuSim.FailedInitThenSample | simulators/imu_sim/lib/imu_sim.py:354-358 | a failed initialisation leaves the generator set, so the next sample raises AttributeError instead of RuntimeError |
| ImuSim.InitAllOutcome | simulators/imu_sim/lib/imu_sim.py:372-384 | RuntimeError, touching nothing, exactly in power-down or single mode; success exactly when no filter is asked for at rate 0; success seeds all three sensors with fresh filters |
| ImuSim.SampleBeforeInit | simulators/imu_sim/lib/imu_sim.py:405-407 | sampling a sensor never initialised raises RuntimeError |
| ImuSim.FilterSteps | simulators/imu_sim/lib/imu_sim.py:413-419 | the first filtered sample primes the state and passes its input; later ones blend by alpha and stay between previous state and input |
| ImuSim.FilterBypassed | simulators/imu_sim/lib/imu_sim.py:413 | without a coefficient the input passes and the state is kept |
| ImuSim.FilterHolds | simulators/imu_sim/lib/imu_sim.py:413-419 | a filter holding x (or unprimed) ends holding x and outputs x |
| ImuSim.OutputBounds | simulators/imu_sim/lib/imu_sim.py:420-457 | accelerometer and gyroscope values are clipped to full scale (kept when in range) and counted at 32768 per full scale; magnetometer values are never clipped; all counts are int16 |
| ImuSim.FullScaleCounts | simulators/imu_sim/lib/imu_sim.py:420-423 | at +full scale the counts saturate at 32767 and at -full scale they are -32768 |
| ImuSim.StaticAccel | simulators/imu_sim/lib/imu_sim.py:408-412 | identity rotation and no noise: linear acceleration in g plus 1 g up plus bias |
| ImuSim.StaticGyro | simulators/imu_sim/lib/imu_sim.py:429-430 | identity rotation and no noise: the rotation rate plus bias |
| ImuSim.StaticMag | simulators/imu_sim/lib/imu_sim.py:447-448 | identity rotation and no noise: the world field plus bias, whatever the motion |
| ImuSim.RunConstant | simulators/imu_sim/lib/imu_sim.py:500-503 | under constant motion and draws, a fresh or settled sensor returns the same reading at every sample |
| ImuSim.StepHolds | simulators/imu_sim/lib/imu_sim.py:405-424 | a sample whose filter holds its input outputs that input's reading and keeps holding it |
| ImuSim.SampleCountCovers | simulators/imu_sim/lib/imu_sim.py:488-490 | positive rate, non-negative duration: at least one sample, the last time within the duration, one more past it |
| ImuSim.TestRatesAndCounts | simulators/imu_sim/tests/test_imu.py:166-186 | the rates (200 Hz, 1 kHz, 100 Hz, 8 Hz) and sample counts (21, 4, 1) the tests expect |
| ImuSim.SimulateBeforeInit | simulators/imu_sim/lib/imu_sim.py:485-486 | `simulate` raises RuntimeError, changing nothing, unless all three sensors were initialised |
| ImuSim.ConfiguredSimulates | simulators/imu_sim/lib/imu_sim.py:484-517 | valid settings with both dividers set, non-negative noise and a successful `init_all_sims`: a non-negative duration always gives a result |
| ImuConfig.GetInt | simulators/imu_sim/lib/imu.py:40 | `getint`: None for a missing option, ValueError exactly for text that is no integer, otherwise its value |
| ImuConfig.GetFloat | simulators/imu_sim/lib/imu.py:54-56 | `getfloat`: None for a missing option, ValueError exactly for text that is no number, otherwise its value |
| ImuConfig.Loaded | simulators/imu_sim/lib/imu.py:25-66 | without an exception, range, filter setting, bias and a non-negative divider are all set |
| ImuConfig.MPU9250.constructor | simulators/imu_sim/lib/imu.py:11-23 | the path is kept and every field starts as None |
| ImuConfig.MPU9250.ReadConfig | simulators/imu_sim/lib/imu.py:25-66 | the fields and exception are those of `read_config` on the old fields |
| ImuConfig.NothingToRead | simulators/imu_sim/lib/imu.py:34-38 | no file is FileNotFoundError and no [accelerometer] section is KeyError, both assigning nothing |
| ImuConfig.RangeChecked | simulators/imu_sim/lib/imu.py:40-44 | a missing, non-integer or unknown range raises ValueError before anything is assigned |
| ImuConfig.DlpfChecked | simulators/imu_sim/lib/imu.py:46-50 | a valid range and a filter code outside {0, 1}: ValueError with only the range assigned |
| ImuConfig.BiasChecked | simulators/imu_sim/lib/imu.py:52-59 | a bias that is no number: ValueError with only range and filter setting assigned |
| ImuConfig.DividerChecked | simulators/imu_sim/lib/imu.py:63-66 | a missing or negative divider raises TypeError after the other four fields are assigned; a non-negative one is stored |
| ImuConfig.SuccessOverwrites | simulators/imu_sim/lib/imu.py:25-66 | a successful read gives the same fields whatever they held before |

## Left out

- Transport and plumbing are not modelled:
  - MQTT client setup, connect, subscribe and the publish calls; the bridges record what they would publish.
  - The WebSocket fan-out and pruning, and the FastAPI routing and status endpoints.
  - Logging, and the simulator control publishes of the backend.
- Real time and asyncio are not modelled:
  - `asyncio.sleep`, `time.sleep` and busy-waits; each handler or loop turn receives the time it observes.
  - Each handler reads the clock once, although the source reads it several times per call.
  - Task cancellation is modelled only for what it changes in the replay session (the cancelled runner's `finally`).
- Floating point: every number is an exact real. NaN and infinity exist only as the JSON value `JNonFinite`. Ints are unbounded, so an int too large for a float converts where Python raises OverflowError; the members affected are listed below. Setters and control handlers whose arguments could hold them require finite arguments (`ImuSim.MPU9250.Set`, `GpsBridge.GpsPublisher.OnMessage`, `GpsSettings.Assign`).
- Trigonometry and geodesy are supplied by the caller and only their normalisation is modelled. This covers `_haversine`, `_bearing`, `_move`, `atan2`, `exp`, `sqrt`, `_rotation_matrix`, `_euler_to_matrix`, tilt-compensated heading and dead reckoning. The navigation-fusion arithmetic of the backend is left out for the same reason.
- `imu_motion` of `simulators/route.py` and `_wave_angles`/`_scenario_motion` of `imu_sim.py` draw from random generators and compute rotations. The IMU model takes the motion provider as a parameter instead.
- Random generators and seeds are not modelled. Every noise generator is represented by its sequence of standard normal draws, and `normal(0, sigma)` is `sigma` times a draw.
- `np.linspace` is taken to produce exactly `i / rate`; its floating-point rounding is not modelled.
- JSON parsing, UTF-8 decoding and jsonschema validation are not modelled. A payload is an `Option<Json>` (None when it does not decode), and a schema verdict is a boolean.
- The backend's topic names come from a topics file that is not part of this model. The model fixes them as the constants `sensor/gps`, `sensor/imu`, `sim/gps`, `sim/imu` and the radar topics.
- Text functions are modelled on ASCII only: `str.isalnum`, `str.upper`, `str.lower` and `str.strip`. `str.isspace` also covers Latin-1.
- Base64 decoding is strict. `b64decode` without `validate=True` discards characters outside the alphabet, while the model rejects them; the round trip of encoded payloads is unaffected.
- `GpsSettings.Assign` requires a representable value: no non-finite float where a setter would store it, no dict for `nmea_sentences` (iterating a dict yields its keys), and a terminator that `Unescape` covers.
- `GpsSettings.Unescape` models `unicode_escape` decoding on ASCII text only. It returns None for non-ASCII input, for named escapes (`\N{...}`) and for escapes of surrogate code points.
- The text forms of `float()` and `int()` are modelled as plain decimal literals with an optional sign. Exponents (`1e-3`), digit underscores (`1_000`), `inf`, `infinity` and `nan` are rejected by the model although Python accepts them. The members that inherit this gap:
- `Radar.TracksOf`: a string element in one of those forms fails to convert in the model but converts in the source.
- `Replay.ReplaySession.Resume`: a string timestamp in one of those forms raises in the model but converts in the source.
- `GpsSettings.GetInt`: an option such as `1_000` is refused by the model but read by `getint`.
- `GpsSettings.GetFloat`: an option such as `1e-3`, `1_0.5`, `inf` or `nan` is refused by the model but read by `getfloat`.
- `GpsBridge.FloatOf`: a control field such as `"1e-3"` or `"nan"` raises ValueError in the model but converts in the source.
- `ImuConfig.GetInt`: an option such as `1_000` is refused by the model but read by `getint`.
- `ImuConfig.GetFloat`: an option with an exponent, underscores, `inf` or `nan` is refused by the model but read by `getfloat`.
- `Esp32.SimSeq`: a `seq` string such as `"1_000"` is kept as text by the model, while `int()` converts it.
- `Replay.ReplaySession.Resume`: a NaN or infinite timestamp (`JNonFinite`) is treated as failing to convert, while `float()` accepts it.
- NaN and infinite JSON numbers (`NaN`, `Infinity`, which Python's `json` accepts) are the single value `JNonFinite`, and the model does not convert it to a number, because exact reals hold neither. Where `float()` of such a field succeeds in the source, the model raises TypeError instead. The members that inherit this gap:
- `Radar.FieldOf`: a `JNonFinite` field does not convert, while `float()` at hmi/backend/app/main.py lines 438 and 449-451 accepts it.
- `Radar.TracksOf`: a list element with a NaN or infinite field fails to convert in the model, while the source builds the track with that value.
- `Radar.TrackManager.ReplaceAll`: a list message with a NaN or infinite field raises TypeError and keeps the old lists in the model, while the source stores the tracks.
- `Radar.TrackManager.OnTrack`: a NaN or infinite distance, bearing or heading raises TypeError and leaves the tracks unchanged in the model, while the source converts it and updates or appends a track.
- `Telemetry.Backend.OnMessage`: a track or radar list message with a NaN or infinite field ends in TypeError in the model, for the reasons given for `Radar.FieldOf`.
- `Replay.TimestampOf`: a NaN or infinite timestamp gives None (TypeError), while `float()` accepts it.
- `Replay.ReplaySession.Begin`: a NaN or infinite base timestamp ends the runner with TypeError in the model. The source keeps it as the base, and every offset from it is NaN or infinite.
- `Replay.ReplaySession.Turn`: a NaN or infinite timestamp at the cursor ends the runner in the model. In the source `max(0.0, t_rel)` is 0.0 for a NaN or negative-infinite offset, so the message is published at once, and for a positive-infinite offset the runner waits until it is paused or stopped.
- `Replay.ReplaySession.Step`: the same NaN or infinite timestamp gap as `Replay.ReplaySession.Turn`.
- `Replay.ReplaySession.RunFrom`: the same NaN or infinite timestamp gap as `Replay.ReplaySession.Turn`.
- `Replay.ReplaySession.Loop`: the same NaN or infinite timestamp gap as `Replay.ReplaySession.Turn`.
- Python ints of magnitude 2^1024 or more are not bounded. `json.loads` returns such ints, and `float()` of one raises OverflowError, as does any arithmetic that mixes one with a float. The model's `JInt` converts to an exact real of any size, so `Json.IsFiniteNumber` and `Json.ToFloat` treat every int as a finite number. The source raises OverflowError, or catches it, at each place it converts an int to float. The members that inherit this gap:
- `Radar.FieldOf`: an int field of magnitude 2^1024 or more converts in the model, while `float()` at hmi/backend/app/main.py lines 438 and 449-451 raises OverflowError.
- `Radar.TracksOf`: a list element with such an int field is converted in the model, while the source raises OverflowError.
- `Radar.TrackManager.ReplaceAll`: a list message with such an int field is stored in the model, while the source raises OverflowError and keeps the old lists.
- `Radar.TrackManager.OnTrack`: such an int distance, bearing or heading is upserted in the model, while `float()` at main.py line 438 raises OverflowError.
- `Health.ImuValidChannels`: such an int channel counts as finite in the model, while `isfinite(float(v))` at main.py line 400 raises OverflowError.
- `Health.ValidImuNeverAborts`: an IMU message with such an int accelerometer field (ax = 10^400, ay = 0, az = 1) is valid and does not abort in the model, while `atan2` at main.py line 345 raises OverflowError.
- `Telemetry.BatteryOutcome`: a battery message with `soc` such an int at or below 1 (soc = -10^400) passes in the model, while `soc *= 100.0` at main.py line 413 raises OverflowError.
- `Telemetry.Backend.HandleGps`: a live GPS message with such an int `lat` or `lon` can be valid and set "Running" in the model, while `_is_num` at main.py lines 303-307 catches the OverflowError and the GPS becomes "Degraded".
- `Telemetry.Backend.HandleImu`: an IMU message with such an int accelerometer field is handled in the model, while main.py line 345 raises OverflowError before the validity check.
- `Telemetry.Backend.OnMessage`: the OverflowError gaps of the GPS, IMU, battery, track and radar branches above.
- `Replay.TimestampOf`: such an int timestamp converts in the model, while `float()` raises OverflowError.
- `Replay.ReplaySession.Resume`: such an int timestamp converts in the model, while `float()` at main.py line 741 raises OverflowError.
- `Replay.ReplaySession.Begin`: such an int base timestamp is taken in the model, while `float()` at main.py line 645 raises OverflowError and ends the runner.
- `Replay.ReplaySession.Turn`: such an int timestamp at the cursor gets a target in the model, while `float()` at main.py line 652 raises OverflowError and ends the runner.
- `Replay.ReplaySession.Step`: the same OverflowError gap as `Replay.ReplaySession.Turn`.
- `Replay.ReplaySession.RunFrom`: the same OverflowError gap as `Replay.ReplaySession.Turn`.
- `Replay.ReplaySession.Loop`: the same OverflowError gap as `Replay.ReplaySession.Turn`.
- `GpsSim.NEOM8N.Set`: such an int is stored by the numeric setters in the model (`update_rate_hz`, altitude, noise, hdop and publish rate), or refused with ValueError for `initial_lat` and `initial_lon`, while `float()` in the setters of simulators/gps_sim/lib/gps_sim.py (lines 106, 146, 158 and the others) raises OverflowError.
- `GpsSettings.AssignLat`: such an int latitude is refused with ValueError in the model, while `float()` at gps_sim.py line 146 raises OverflowError.
- `GpsSettings.AssignLon`: such an int longitude is refused with ValueError in the model, while `float()` at gps_sim.py line 158 raises OverflowError.
- `GpsBridge.FloatOf`: such an int converts in the model, while `float()` at simulators/gps_sim/lib/mqtt_bridge.py lines 231-239 raises OverflowError.
- `GpsBridge.GpsPublisher.OnMessage`: a VECTOR or ROUTE message with such an int field engages in the model, while the OverflowError of `float()` at mqtt_bridge.py lines 231-239 leaves the handler.
- `GpsBridge.GpsPublisher.Configure`: the same OverflowError gap as `GpsBridge.FloatOf`, for each field it stores.
- `ImuSim.MPU9250.Set`: such an int as a bias or world-field component, or as a noise density, is accepted in the model, while `float()` at simulators/imu_sim/lib/imu_sim.py lines 136, 146, 211, 221, 291, 303 and 315 raises OverflowError.
- `ImuSim.VectorSetters`: a triple holding such an int is accepted in the model, while `float(v)` at imu_sim.py lines 136, 211, 291 and 315 raises OverflowError.
- `ImuSim.NoiseDensitySetters`: such an int is accepted in the model, while `float(val)` at imu_sim.py lines 146, 221 and 303 raises OverflowError.
- `MagSimulator.MagSim.Step`: the model clips the exact rounded count to the int16 range. The source first casts it to int32 (simulators/imu_sim/lib/magnetometer_sim.py line 95), and for |B·cps| ≥ 2^31 that cast of an out-of-range float is platform-dependent: on x86 it gives -2^31, which the clip turns into -32768. The model gives the saturated value, as a saturating cast would.
- `RunScenario.Run`: the scenario arrives with typed points, each with its speed. A scenario without `"points"` (simulators/scripts/run_scenario.py line 147) or a point without `"speed"` (line 117) raises KeyError in the source, which typed points cannot express.
- `RawRecorder.ReplayMode`: the clock is a finite sequence of readings, and each wait consumes the readings it looks at. A replay whose readings run out stops with `ClockExhausted`, which the source, reading a clock that never runs out, does not do. `RawRecorder.RecordedReplayFinishes` therefore asks for as many final readings as planned messages. The 10 ms sleep between readings is not modelled.
- Concurrency is modelled as whole handlers that run between whole loop turns. In both bridges and in the backend, paho runs the message callbacks on its own network thread (`loop_start`), concurrently with the publishing loop or with the asyncio endpoints and tasks of the backend. Interleavings inside a handler or inside a loop turn are not captured. The members whose proofs depend on this:
- `GpsBridge.GpsPublisher.Tick`: "never raises" assumes no control message interleaves mid-turn. In the source, a VECTOR or ROUTE message handled while the loop is between its sample and `_last_tick = tick` can reset `_sim_t` and `_last_tick`. The next turn then samples at an earlier simulated time than the last sample, and `sample` raises ValueError (simulators/gps_sim/lib/gps_sim.py lines 312-313).
- `GpsBridge.GpsPublisher.Handle`: "no event raises" holds for the atomic events of the model only, for the reason given for `GpsBridge.GpsPublisher.Tick`.
- `GpsBridge.GpsPublisher.Receive`: "keeps the schedule anchored" assumes that the handler runs between loop turns, for the reason given for `GpsBridge.GpsPublisher.Tick`.
- `Health.GpsAborts`: a NaN or infinite coordinate is taken to pass through `_haversine` and `_bearing`. Python's `sin` raises ValueError for an infinite argument but not for NaN, and the single value `JNonFinite` cannot tell the two apart.
- `Telemetry.Backend.OnMessage`: the payload arrives already decoded. A payload that is not UTF-8 raises UnicodeDecodeError in `_on_message`, which catches only JSONDecodeError, but the model treats it like any undecodable payload and returns Pass with nothing changed. The write-only `_last_processed` timestamp is not modelled either.
- `Scenarios.Load`: the scenario's points arrive as typed `Waypoint` records. `Waypoint(**p)` raises TypeError for a point with a missing or unexpected key, or one that is not a mapping, and typed points cannot express those.
- `RouteSim.ToWayPoint`: the points arrive as typed `PointEntry` records. `p["lat"]` and `p["lon"]` raise KeyError for a point without them, which typed points cannot express.
- `ImuConfig`: `imu.py` line 8 imports `AccelerationRange`, which `enums.py` does not define, so importing the module fails as written. The model reads the name as `AccelerometerRange` (codes 1, 2, 4 and 8) so that `read_config` can be stated at all.
- `imu_sim.py`'s own `read_config` (INI plumbing onto the setters) is not modelled. The setters it calls are.
- `ImuSim.MPU9250.Sample`: after the first filtered magnetometer sample, `_mag_prev` is the same numpy array as the returned value, and later in-place updates would also change that earlier return value. The model returns values, so this aliasing is not captured.
- `AccelSimulator.AccelSim.constructor` requires that the filter coefficient can be computed. The ZeroDivisionError of an enabled filter at a zero output rate is stated by `AccelSimulator.Alpha` rather than raised by the constructor.
- `GyroSimulator.GyroSim.constructor` has the same requirement; `GyroSimulator.Alpha` states the ZeroDivisionError.
- `GpsBridge.GpsPublisher.constructor` requires a receiver that satisfies its own invariant, which every constructed `NEOM8N` does.
- `Recording.Session.Start` and `Replay.ReplaySession.Start` take the computed file or recording name as a parameter. `RequestedName` and `ReplayName` state how the endpoints compute it.
- `GpsBridge.MeasOut` publishes `speed`, `fix` and `ts` as null, as the source does, because it reads keys the measurement does not have. The same missing key makes `test_gps.py` line 104 fail as written.
- Config-file wrapper modules and other non-core files are not modelled:
  - `configparser.py` of the ESP32 and GPS simulators, and `configparsers.py` of the IMU simulator;
  - the IMU MQTT bridge;
  - the radar simulator;
  - the plotting scripts.

## Findings

| source | as written | input that shows it | evidently intended | confidence | as-written member | corrected member |
|---|---|---|---|---|---|---|
| simulators/gps_sim/lib/mqtt_bridge.py:253-254 | `start` refuses to run only when the receiver has no `_rng` attribute, but `NEOM8N.__init__` always sets `_rng = None`, so the guard never fires | `start` on a receiver that never ran `init_sim`: the guard passes and the client connects; the loop idles until a VECTOR or ROUTE message, whose handler runs `init_sim` before it sets `_active`, so nothing fails, but the docstring's demand to initialise first is never enforced and the guard is dead code | refuse with RuntimeError until `init_sim` has run, as the docstring of `start` demands | not executed | GpsBridge.GuardNeverFires | GpsBridge.StartGuard |
| simulators/gps_sim/lib/mqtt_bridge.py:315-319 | a payload rejected by the validator executes `self._t_next += dt_pub`, but `_t_next` is never assigned | validation on and a validator that rejects the payload: AttributeError ends `start` | drop that payload and continue with the next period, recording its tick as a published one is (the `continue` also skips `self._last_tick = tick` at line 331, so even with `_t_next` defined the next turn would move the boat over the same ticks again) | not executed | GpsBridge.RejectRaises | GpsBridge.GpsPublisher.Iterate |
