/** The `Plug` class of plug.py: one configured smart plug, its lazily
    opened device session and the payload built from one reading.  The
    vendor calls (`ApiClient.p110`, `get_device_info`, `get_energy_usage`)
    are inputs: the handle a connect attempt yields, or nothing when it
    raised, and the dictionaries the two queries return on a handle, or
    nothing when they raised. */
module Plug {
  import opened Values
  import opened Config

  /** The device object `client.p110(hostname)` returns, as an opaque token. */
  datatype Handle = Handle(id: nat)

  /** The exceptions `get_device_info` can raise, in the order it can raise them. */
  datatype FetchError =
    | ConnectFailed       // "Cannot connect to plug ..."
    | DeviceInfoFailed    // get_device_info() on the handle raised
    | DeviceOnMissing     // KeyError: the device info has no "device_on"
    | EnergyUsageFailed   // "Cannot get energy usage info for ..."
    | PowerNotNumeric     // TypeError: current_power is absent or not a number

  /** The keys the payload always takes from the readings. */
  const ReadingKeys: set<string> := {ON, CURRENT_POWER, TODAY_ENERGY, TODAY_RUNTIME}

  /** The entries `payload.update(data)` adds: those of a truthy `data` dict. */
  function DataEntries(data: Json): (r: map<string, Json>)
    ensures !Truthy(data) ==> r == map[]
    ensures Truthy(data) && data.JObj? ==> r == data.fields
  {
    if Truthy(data) && data.JObj? then data.fields else map[]
  }

  /** The payload of one reading, key by key: the four reading keys always,
      `nickname` only when the device reported a truthy one, and every `data`
      entry, which wins over a reading key of the same name. */
  ghost predicate IsPayload(p: map<string, Json>, deviceOn: Json, nickname: Json,
                            usage: map<string, Json>, power: real, data: Json)
  {
    var extra := DataEntries(data);
    && p.Keys == ReadingKeys + (if Truthy(nickname) then {NICKNAME} else {}) + extra.Keys
    && (forall k :: k in extra ==> p[k] == extra[k])
    && (ON !in extra ==> p[ON] == deviceOn)
    && (CURRENT_POWER !in extra ==> p[CURRENT_POWER] == JNum(power / 1000.0))
    && (TODAY_ENERGY !in extra ==> p[TODAY_ENERGY] == Get(usage, TODAY_ENERGY))
    && (TODAY_RUNTIME !in extra ==> p[TODAY_RUNTIME] == Get(usage, TODAY_RUNTIME))
    && (Truthy(nickname) && NICKNAME !in extra ==> p[NICKNAME] == nickname)
  }

  /** The description above leaves no freedom: it fixes the payload. */
  lemma PayloadDetermined(p: map<string, Json>, q: map<string, Json>, deviceOn: Json, nickname: Json,
                          usage: map<string, Json>, power: real, data: Json)
    requires IsPayload(p, deviceOn, nickname, usage, power, data)
    requires IsPayload(q, deviceOn, nickname, usage, power, data)
    ensures p == q
  {
    var extra := DataEntries(data);
    forall k | k in p.Keys ensures p[k] == q[k] {
      if k !in extra {
        assert k in ReadingKeys || k == NICKNAME;
      }
    }
  }

  /** The dict literal of plug.py:91-96: power in watts, the rest as read. */
  function Readings(deviceOn: Json, usage: map<string, Json>, power: real): (r: map<string, Json>)
    ensures r.Keys == ReadingKeys
  {
    map[ON := deviceOn, CURRENT_POWER := JNum(power / 1000.0),
        TODAY_ENERGY := Get(usage, TODAY_ENERGY), TODAY_RUNTIME := Get(usage, TODAY_RUNTIME)]
  }

  /** The readings, with the nickname added when truthy and then updated with
      the `data` entries, form the payload. */
  lemma ReadingsUpdatedWithData(deviceOn: Json, nickname: Json, usage: map<string, Json>,
                                power: real, data: Json)
    ensures var base := Readings(deviceOn, usage, power);
      var named := if Truthy(nickname) then base[NICKNAME := nickname] else base;
      IsPayload(named + DataEntries(data), deviceOn, nickname, usage, power, data)
  {
    ReservedKeysDistinct();
    var base := Readings(deviceOn, usage, power);
    var named := if Truthy(nickname) then base[NICKNAME := nickname] else base;
    assert named.Keys == ReadingKeys + (if Truthy(nickname) then {NICKNAME} else {});
    assert named[ON] == deviceOn && named[CURRENT_POWER] == JNum(power / 1000.0);
    assert named[TODAY_ENERGY] == Get(usage, TODAY_ENERGY) && named[TODAY_RUNTIME] == Get(usage, TODAY_RUNTIME);
  }

  /** Lines 85-101 of `get_device_info`: build the payload dict from the
      readings, then add the nickname and update it with `data` in place. */
  method MakePayload(deviceOn: Json, nickname: Json, usage: map<string, Json>, data: Json)
    returns (r: Result<map<string, Json>, FetchError>)
    requires Truthy(data) ==> data.JObj?
    ensures r.Failure? <==> AsNumber(Get(usage, CURRENT_POWER)).None?
    ensures r.Failure? ==> r.error == PowerNotNumeric
    ensures r.Success? ==>
      IsPayload(r.value, deviceOn, nickname, usage, AsNumber(Get(usage, CURRENT_POWER)).value, data)
  {
    var currentPower := AsNumber(Get(usage, CURRENT_POWER));
    if currentPower.None? {
      return Failure(PowerNotNumeric);
    }
    var payload := Readings(deviceOn, usage, currentPower.value);
    if Truthy(nickname) {
      payload := payload[NICKNAME := nickname];
    }
    ghost var named := payload;
    if Truthy(data) {
      payload := payload + data.fields;
    }
    assert payload == named + DataEntries(data);
    ReadingsUpdatedWithData(deviceOn, nickname, usage, currentPower.value, data);
    return Success(payload);
  }

  /** What a configuration that passed `check_config` lets through: a reading
      key holds either the reading's own value or a falsy value from `data`. */
  lemma ValidatedDataShadowsOnlyWithFalsy(rec: Record, p: map<string, Json>, deviceOn: Json,
                                          nickname: Json, usage: map<string, Json>, power: real)
    requires RecordOk(rec)
    requires IsPayload(p, deviceOn, nickname, usage, power, Get(rec, "data"))
    ensures p[ON] == deviceOn || !Truthy(p[ON])
    ensures p[CURRENT_POWER] == JNum(power / 1000.0) || !Truthy(p[CURRENT_POWER])
    ensures p[TODAY_ENERGY] == Get(usage, TODAY_ENERGY) || !Truthy(p[TODAY_ENERGY])
    ensures p[TODAY_RUNTIME] == Get(usage, TODAY_RUNTIME) || !Truthy(p[TODAY_RUNTIME])
  {
    var extra := DataEntries(Get(rec, "data"));
    forall k | k in CheckedReservedKeys && k in extra ensures !Truthy(p[k]) {
      assert Get(Get(rec, "data").fields, k) == extra[k];
    }
  }

  /** `{"on": false}` in `data` passes the reserved-key check and hides a
      device that is on. */
  lemma FalsyReservedDataOverridesReading(p: map<string, Json>, usage: map<string, Json>, power: real)
    requires IsPayload(p, JBool(true), JNull, usage, power, JObj(map[ON := JBool(false)]))
    ensures CheckReservedKeys(map[ON := JBool(false)]) == None
    ensures p[ON] == JBool(false)
  {
    ReservedKeysDistinct();
  }

  /** A configured plug and its device session. */
  class Plug {
    /** `_plug_config`: a record that passed `check_config`. */
    const config: Record
    /** `_p110`: absent until a connect succeeds; nothing ever clears it. */
    var handle: Option<Handle>

    ghost predicate Valid() {
      RecordOk(config)
    }

    /** `__init__`, which assumes the record has been validated. */
    constructor (plugConfig: Record)
      requires RecordOk(plugConfig)
      ensures Valid()
      ensures config == plugConfig && handle == None
    {
      config := plugConfig;
      handle := None;
    }

    /** The `hostname` property. */
    function Hostname(): (h: Json)
      requires Valid()
      ensures "hostname" in config && h == config["hostname"] && Truthy(h)
    {
      assert RequiredFields[0] in RequiredFields;
      config["hostname"]
    }

    /** The `topic` property. */
    function Topic(): (t: Json)
      requires Valid()
      ensures "topic" in config && t == config["topic"] && Truthy(t)
    {
      assert RequiredFields[3] in RequiredFields;
      config["topic"]
    }

    /** `connect`: `client` is what `ApiClient(...).p110(hostname)` gave, or
        nothing when it raised.  Only a success changes the session. */
    method Connect(client: Option<Handle>) returns (err: Option<FetchError>)
      modifies this
      ensures client.Some? ==> handle == client && err == None
      ensures client.None? ==> handle == old(handle) && err == Some(ConnectFailed)
    {
      if client.None? {
        return Some(ConnectFailed);
      }
      handle := client;
      return None;
    }

    /** `get_device_info`: connect first when there is no session, then query
        the device info and the energy usage on the session and return the
        configured topic with the payload.  `client` is consulted only when
        a connect is needed. */
    method GetDeviceInfo(client: Option<Handle>,
                         deviceInfo: Handle -> Option<map<string, Json>>,
                         energyUsage: Handle -> Option<map<string, Json>>)
      returns (r: Result<(Json, map<string, Json>), FetchError>)
      requires Valid()
      modifies this
      ensures old(handle).Some? ==> handle == old(handle)
      ensures old(handle).None? ==> handle == client
      ensures handle.None? ==> r == Failure(ConnectFailed)
      ensures handle.Some? ==> QueryResult(handle.value, deviceInfo, energyUsage, r)
      ensures r.Success? ==> r.value.0 == Topic()
    {
      if handle.None? {
        var err := Connect(client);
        if err.Some? {
          return Failure(err.value);
        }
      }
      var h := handle.value;
      var info := deviceInfo(h);
      if info.None? {
        return Failure(DeviceInfoFailed);
      }
      if "device_on" !in info.value {
        return Failure(DeviceOnMissing);
      }
      var deviceOn := info.value["device_on"];
      var nickname := Get(info.value, NICKNAME);
      var usage := energyUsage(h);
      if usage.None? {
        return Failure(EnergyUsageFailed);
      }
      var payload := MakePayload(deviceOn, nickname, usage.value, Get(config, "data"));
      if payload.Failure? {
        return Failure(payload.error);
      }
      return Success((Topic(), payload.value));
    }

    /** The outcome of the two queries on session `h`, in the order the
        source makes them and raises. */
    ghost predicate QueryResult(h: Handle,
                                deviceInfo: Handle -> Option<map<string, Json>>,
                                energyUsage: Handle -> Option<map<string, Json>>,
                                r: Result<(Json, map<string, Json>), FetchError>)
    {
      match deviceInfo(h)
      case None => r == Failure(DeviceInfoFailed)
      case Some(info) =>
        if "device_on" !in info then r == Failure(DeviceOnMissing)
        else
          match energyUsage(h)
          case None => r == Failure(EnergyUsageFailed)
          case Some(usage) =>
            match AsNumber(Get(usage, CURRENT_POWER))
            case None => r == Failure(PowerNotNumeric)
            case Some(power) =>
              r.Success? &&
              IsPayload(r.value.1, info["device_on"], Get(info, NICKNAME), usage, power, Get(config, "data"))
    }
  }
}
