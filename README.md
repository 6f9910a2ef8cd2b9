# plug2mqtt in Dafny

plug2mqtt reads the state of TP-Link Tapo P110 smart plugs and publishes it
to an MQTT broker. A companion listener (demo.py) subscribes to the
published topics and classifies each plugged-in appliance as on, off or
unknown, from its power draw and the age of its last sample. This project
models the core of both:

- `values.dfy` (`Values`): decoded JSON values, plus the parts of Python
  the code relies on. These are truthiness, `dict.get`, `bool` counting as a
  number for `/` and `>`, and the way `set(...)` merges `True` with `1` and
  raises on lists and dicts.
- `config.dfy` (`Config`): the reserved payload keys, `check_reserved_keys`
  and `check_config` of config.py, and the older `config_check` of
  plug2mqtt.py. A raised `ValueError`, a `TypeError` or an exit with status 1
  is an `Outcome` of `Fail(error)`. The error names which check fired.
- `plug.dfy` (`Plug`): the `Plug` class, a configured plug plus its lazily
  opened vendor session. The class carries the session as a mutable field.
  `get_device_info` is a method. The payload it builds is pinned down key by
  key by the predicate `IsPayload`.
- `demo.dfy` (`Demo`): the `Device` class, the device table that the MQTT
  `message` callback fills in place, topic parsing, and `get_device_state`.
- `plug2mqtt.dfy` (`Plug2Mqtt`): one pass of the publish loop of
  plug2mqtt.py. Each plug is read and its `{"on": device_on}` is published.
  A plug whose vendor steps raise is skipped.

The vendor library is an input:
- `client.p110(hostname)` is an `Option<Handle>`;
- the two queries on a session are functions from the handle to an optional
  dict;
- in the publish loop, the device-info response of each plug is an optional
  JSON value.

`time.monotonic()` is a parameter `now`. The MQTT broker is the sequence of
`Publish` messages a cycle produces.

Points where the code does less than its own names and comments say; the
model follows the code:

- `NICKNAME` is declared among the reserved keys (config.py:10-14), and the
  docstring of `check_reserved_keys` says it checks whether the dictionary
  has any reserved key (config.py:57-60). But the function tests only four
  of the five keys, and only for truthy values (config.py:61-71). So
  `{"on": false}` passes validation, and `payload.update(data)` then
  replaces the device's real `on` reading. See
  `Plug.FalsyReservedDataOverridesReading` and
  `Plug.ValidatedDataShadowsOnlyWithFalsy`.
- As written, the older `config_check` can never succeed. It calls `len()`
  on a generator expression, which raises `TypeError` once all fields are
  present. So the publish loop after it is unreachable as written. The loop
  is modelled on its own, for configurations whose records hold `hostname`
  and `topic` (`Plug2Mqtt.Publishable`).
- test_plug2mqtt.py imports `is_config_ok` from plug2mqtt, which does not
  define it. The test configurations are replayed against `check_config` of
  config.py. That function raises where the test expects a false result.

## Model

Some members are plain definitions that the contracts below are stated with, and have no row of their own: `Values.Truthy`, `Values.Get` (`dict.get`), `Values.AsNumber` (the number `/` and `>` see), `Values.Hashable`, `Plug.DataEntries` (what `payload.update(data)` adds), `Plug2Mqtt.DeviceOn` (`response["result"]["device_on"]`) `Plug2Mqtt.Contributions` (each plug's contribution to a cycle), `Plug2Mqtt.Publishes` (the messages of one cycle), `Config.FieldValues` (`plug[field]` for every record, the list comprehension of config.py:100 and :105), `Config.HashKeys` (the set element each of those values hashes to) and `Config.ToSet` (`set(...)`).

| member | source | states |
|---|---|---|
| Values.TruthyGetPresent | config.py:83-100 | a key whose `get` is truthy is present, so `plug["hostname"]` and `plug["topic"]` cannot raise once the field guards passed |
| Values.HashKey | config.py:100 | the set element of a hashable value is null, a number or a string; a non-bool value is its own element |
| Values.HashKeyEquality | config.py:100-107 | two hashable values collapse into one set element exactly when Python's `==` holds between them |
| Config.ReservedKeysDistinct | config.py:10-14 | the five reserved key constants are pairwise different strings |
| Config.CheckReservedKeys | config.py:57-71 | no error iff none of on/current_power/today_energy/today_runtime holds a truthy value; an error names a checked key whose value is truthy |
| Config.ReservedKeyOrder | config.py:57-71 | the key reported is the first key, in the order on, current_power, today_energy, today_runtime, whose value is truthy |
| Config.NicknameNeverRejected | config.py:57-71 | setting `nickname` in `data` to anything never changes the reserved-key verdict |
| Config.FieldError | config.py:83-90 | no error iff hostname, username, password and topic all have truthy values; an error is `Missing(f)` for a required field `f` that is missing or falsy |
| Config.FieldOrder | config.py:83-90 | the field reported is the first field, in the order hostname, username, password, topic, that is missing or falsy |
| Config.RecordError | config.py:82-97 | no error iff the record is acceptable; field errors come first; `data` is inspected only when truthy: not a dict gives `DataNotDict`, otherwise the reserved-key check decides |
| Config.FirstError | config.py:82-97 | a loop that only tests and raises passes iff every record passes; a raised error is the error of one of the records |
| Config.FirstErrorIs | config.py:82-97 | the loop reports the error of the first failing record |
| Config.CardinalityIffDistinct | config.py:100-107 | `len(set(s)) <= len(s)`, with equality exactly when no element repeats |
| Config.CheckUnique | config.py:100-107 | the set-length test passes iff every value is hashable and no two are equal; an unhashable value raises `TypeError` before any comparison |
| Config.UniqueFieldIff | config.py:100-107 | the pairwise uniqueness predicate agrees with the set-length test over `plug[field]` |
| Config.CheckConfig | config.py:75-107 | `check_config` passes iff every record is acceptable and hostnames, and topics, are hashable and pairwise unequal |
| Config.FirstRecordErrorReported | config.py:82-107 | the first failing record's error is reported, before any duplicate check |
| Config.MissingFieldFails | config.py:83-90 | a record with a missing or falsy required field makes validation fail with a per-record error |
| Config.FirstFailing | config.py:82-97 | some record at or before a failing one is the first failing record |
| Config.DuplicateFails | config.py:100-107 | two records with the same hostname, or the same topic, make validation fail |
| Config.DuplicateHostnamesReportedFirst | config.py:100-102 | once all records pass, a repeated hostname is reported as duplicate hostnames, whatever the topics |
| Config.DuplicateTopicsReported | config.py:105-107 | once all records pass and hostnames are unique, a repeated topic is reported as duplicate topics |
| Config.EmptyConfigPasses | config.py:75-107 | the empty configuration is accepted |
| Config.LegacyConfigCheck | plug2mqtt.py:63-94 | the older `config_check` never succeeds: it exits with a missing-field error when some record lacks a field, and otherwise raises `TypeError` on `len()` of a generator |
| Config.LegacyReportsFirstMissingField | plug2mqtt.py:72-84 | the older check reports the first record with a missing field, in the same field order |
| Config.FieldErrorsAgree | plug2mqtt.py:72-84 | when `check_config` stops on a missing field, the older loop stops on the same one |
| Config.LegacyAgreesOnMissingFields | plug2mqtt.py:63-94 | on configurations that `check_config` rejects for a missing field, both validators give the same outcome |
| Config.TestRecordOk | test_plug2mqtt.py:10-23 | a base test record passes the per-record checks and holds its hostname and topic |
| Config.BaseConfigPasses | test_plug2mqtt.py:10-23 | the base test configuration is accepted |
| Config.DuplicateHostnameTest | test_plug2mqtt.py:26-33 | copying the second hostname into the first record is rejected as duplicate hostnames |
| Config.DuplicateTopicTest | test_plug2mqtt.py:36-43 | copying the second topic into the first record is rejected as duplicate topics |
| Config.MissingFieldTests | test_plug2mqtt.py:46-59 | the records without a hostname and without a topic are rejected as `Missing("hostname")` and `Missing("topic")` |
| Config.DataNotDictTest | test_plug2mqtt.py:62-75 | a list under `data` is rejected as `DataNotDict` |
| Plug.PayloadDetermined | plug.py:91-101 | the key-by-key payload description allows exactly one dict |
| Plug.Readings | plug.py:91-96 | the dict literal has exactly the four reading keys |
| Plug.ReadingsUpdatedWithData | plug.py:91-101 | the readings, plus a truthy nickname, updated with `data`, satisfy the payload description |
| Plug.MakePayload | plug.py:85-101 | fails with `TypeError` iff `current_power` is absent or not a number; otherwise returns the payload: the four readings with power divided by 1000, a truthy nickname, and every `data` entry winning over a reading |
| Plug.ValidatedDataShadowsOnlyWithFalsy | config.py:57-97 | after `check_config`, each reading key holds its reading or a falsy value from `data` |
| Plug.FalsyReservedDataOverridesReading | plug.py:100-101 | `{"on": false}` passes the reserved-key check and hides a device that is on |
| Plug.Plug.constructor | plug.py:18-23 | a plug starts from its validated record with no session |
| Plug.Plug.Hostname | plug.py:44-49 | the hostname property is the record's `hostname`, which is present and truthy |
| Plug.Plug.Topic | plug.py:51-56 | the topic property is the record's `topic`, which is present and truthy |
| Plug.Plug.Connect | plug.py:27-42 | a successful connect stores the session; a failed one leaves the session unchanged and raises "Cannot connect" |
| Plug.Plug.GetDeviceInfo | plug.py:58-103 | connects only without a session and never drops one; then, in order: device-info failure, missing `device_on`, energy-usage failure, non-numeric power, else the configured topic and the payload |
| Demo.Device.constructor | demo.py:28-31 | a new device holds its name, its power sample and the current time |
| Demo.Device.Update | demo.py:36-41 | an update stores the new sample and the current time |
| Demo.LastSlash | demo.py:124 | `rindex("/")` fails iff the topic has no '/'; otherwise it gives a '/' with no '/' after it |
| Demo.DeviceName | demo.py:122-127 | the name is '/'-free and is what follows the topic's last '/'; no name when there is no '/' |
| Demo.DeviceNameOfTopic | demo.py:122-127 | any prefix, then "/", then a '/'-free name, gives back that name |
| Demo.Accepted | demo.py:115-138 | a message records a sample iff it has a non-empty device name, a JSON body and a truthy `on`; the sample is the body's `current_power` |
| Demo.Received | demo.py:137-146 | an accepted message sets its device's sample and time, adds the device if it is new and touches no other; any other message changes nothing |
| Demo.IgnoredMessages | demo.py:122-137 | a topic without '/', a topic ending in '/', an undecodable body or a falsy `on` leaves the table unchanged |
| Demo.DeviceMap.constructor | demo.py:176-177 | the device table starts empty |
| Demo.DeviceMap.Message | demo.py:115-146 | the table after the callback is `Received` of the table before; existing devices are updated in place, never replaced; new ones are fresh |
| Demo.GetDeviceState | demo.py:149-161 | "N/A" iff the sample is at least `timeout` seconds old; otherwise "on" iff power is above the threshold and "off" iff at or below; a non-numeric sample raises `TypeError` |
| Demo.ClassifierExamples | demo.py:149-161 | with a 60 s timeout and a threshold of 10: a 61 s old sample is "N/A", 15 is "on", 5 is "off" |
| Plug2Mqtt.PlugPublish | plug2mqtt.py:140-159 | a plug contributes one message iff its steps succeed, on its own topic, with payload `{"on": device_on}`; otherwise nothing |
| Plug2Mqtt.ConcatSplit | plug2mqtt.py:140-159 | the messages of a cycle split at any plug into those before and those after |
| Plug2Mqtt.ConcatLength | plug2mqtt.py:140-159 | joining contributions of at most one message each gives at most one message per contribution |
| Plug2Mqtt.PublishesBound | plug2mqtt.py:140-159 | a cycle publishes at most one message per plug |
| Plug2Mqtt.ConcatAt | plug2mqtt.py:140-159 | a cycle's messages are those before plug `i`, then plug `i`'s, then those after it |
| Plug2Mqtt.PublishesAt | plug2mqtt.py:140-159 | plug `i`'s message, if any, sits between the messages of earlier plugs and those of later plugs |
| Plug2Mqtt.PublishCycle | plug2mqtt.py:140-159 | the loop publishes exactly the messages of the cycle, in plug order, skipping plugs whose steps raised |
| Plug2Mqtt.MiddlePlugFails | plug2mqtt.py:153-155 | with three plugs and the middle one unreachable, the first and third are published in order |

## Left out

- Argument parsing (`parse_args` in all three programs) and `logutil` are command-line plumbing, outside the core.
- Logging is output only. The one exception is plug2mqtt.py:149, whose debug message calls `getDeviceInfo()` at every log level; see the `Plug2Mqtt.PublishCycle` line below.
- The MQTT client (connect, SSL context, `loop`, `subscribe` and the other callbacks) is external I/O. A publish is a `Publish` value.
- The vendor libraries (`tapo.ApiClient`, `PyP110.P110`, `handshake`, `login`, `getDeviceInfo`, `to_dict`) are inputs: a session handle or the response dict, or nothing when the call raised.
- Reading plugs.json and `json.loads` of message bodies are modelled only by their outcome: a decoded value, or nothing when decoding failed.
- `json.dumps` of a payload is left out. Only the value before serialisation is modelled.
- `async`/`await` is left out. Each coroutine runs to completion in turn.
- The outer `while True` loop of `main`, `time.sleep`, `os.chdir`, `sys.exit` and `KeyboardInterrupt` handling are left out. One pass of the loop is modelled.
- The main of demo.py, the loop that prints each device's state, is left out, except the `devices = {}` it starts from (`Demo.DeviceMap.constructor`). Its classification step is `GetDeviceState`.
- Plug2Mqtt.PublishCycle: `getDeviceInfo()` is called twice, once for the debug log and once for the value. Both calls are taken to give the same response.
- Config.CheckConfig: a configuration element that is not a JSON object, which makes `plug.get` raise `AttributeError`, is not modelled. Records are always objects.
- Demo.Accepted: a message body that decodes to something other than an object, which makes `d.get` raise `AttributeError`, is not modelled. Bodies are objects or undecodable.
- Values.HashKey: Python equality is modelled for null, booleans, numbers and strings (`True == 1`, `1 == 1.0`). NaN and numbers too large for a float are left out.
- Numbers are exact reals (`Values.AsNumber`). Floating-point rounding of `current_power / 1000` and of the age computation in `get_device_state` is not modelled.
- `Device.__str__` and `Plug.__str__` only format log text.
